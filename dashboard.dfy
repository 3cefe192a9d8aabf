/** The dashboard: statistic cards with an optional trend line, recent service calls
    and hour banks with status badges, and a bar per hour bank showing the share of
    hours left. */
module Dashboard {
  import opened Views
  import ServiceCalls
  import HourBanks

  // The compact trend label

  predicate IsDigit(c: char)
  {
    '0' <= c <= '9'
  }

  predicate AllDigits(s: string)
  {
    forall k :: 0 <= k < |s| ==> IsDigit(s[k])
  }

  /** The longest prefix of `s` made of digits. */
  function LeadingDigits(s: string): (r: string)
    ensures |r| <= |s| && r == s[..|r|]
    ensures AllDigits(r)
    ensures |r| == |s| || !IsDigit(s[|r|])
  {
    if s == [] || !IsDigit(s[0]) then ""
    else
      var rest := LeadingDigits(s[1..]);
      assert [s[0]] + rest == s[..1 + |rest|];
      [s[0]] + rest
  }

  /** `run` is the first maximal run of digits in `s`, starting at `i`. */
  predicate FirstRunAt(s: string, i: int, run: string)
  {
    0 <= i && i + |run| <= |s| && run != [] && s[i..i + |run|] == run
    && (forall k :: 0 <= k < i ==> !IsDigit(s[k]))
    && AllDigits(run)
    && (i + |run| == |s| || !IsDigit(s[i + |run|]))
  }

  /** `run` is the first maximal run of digits in `s`, wherever it starts. */
  ghost predicate IsFirstRun(s: string, run: string)
  {
    exists i :: FirstRunAt(s, i, run)
  }

  /** `s.match(/\d+/)?.[0]`: the first maximal run of digits, or nothing when `s` has no digit. */
  function FirstDigitRun(s: string): (r: Option<string>)
    ensures r.None? <==> forall k :: 0 <= k < |s| ==> !IsDigit(s[k])
    ensures r.Some? ==> IsFirstRun(s, r.value)
    decreases |s|
  {
    if s == [] then None
    else if IsDigit(s[0]) then
      var run := LeadingDigits(s);
      assert FirstRunAt(s, 0, run);
      Some(run)
    else
      var r := FirstDigitRun(s[1..]);
      assert forall k :: 1 <= k < |s| ==> s[k] == s[1..][k - 1];
      assert r.Some? ==> IsFirstRun(s, r.value) by {
        if r.Some? {
          var j :| FirstRunAt(s[1..], j, r.value);
          assert s[j + 1..j + 1 + |r.value|] == s[1..][j..j + |r.value|];
          assert FirstRunAt(s, j + 1, r.value);
        }
      }
      r
  }

  /** There is only one first run: its start and its digits are fixed by the string. */
  lemma FirstRunUnique(s: string, i: int, run: string, j: int, run2: string)
    requires FirstRunAt(s, i, run) && FirstRunAt(s, j, run2)
    ensures i == j && run == run2
  {
    assert IsDigit(s[i]) && IsDigit(s[j]) by {
      assert s[i] == run[0];
      assert s[j] == run2[0];
    }
  }

  /** Whatever run of a string is first, that is the run the match returns. */
  lemma FirstDigitRunIs(s: string, i: int, run: string)
    requires FirstRunAt(s, i, run)
    ensures FirstDigitRun(s) == Some(run)
  {
    var r := FirstDigitRun(s);
    assert IsDigit(s[i]) by {
      assert s[i] == run[0];
    }
    var j :| FirstRunAt(s, j, r.value);
    FirstRunUnique(s, i, run, j, r.value);
  }

  /** The `sm:` line of a stat card: the sign chosen by `trendUp`, the first run of digits of
      the trend text (empty when it has none, as an undefined child renders nothing), and `%`. */
  function TrendLabel(trendUp: bool, trend: string): (shown: string)
    ensures |shown| >= 2 && shown[0] == (if trendUp then '+' else '-') && shown[|shown| - 1] == '%'
    ensures AllDigits(shown[1..|shown| - 1])
    ensures shown[1..|shown| - 1] == "" <==> forall k :: 0 <= k < |trend| ==> !IsDigit(trend[k])
    ensures shown[1..|shown| - 1] != "" ==> IsFirstRun(trend, shown[1..|shown| - 1])
  {
    var digits := match FirstDigitRun(trend) case None => "" case Some(d) => d;
    var shown := [if trendUp then '+' else '-'] + digits + "%";
    assert shown[1..|shown| - 1] == digits;
    shown
  }

  /** The trend line renders only for a trend that is given and non-empty; an absent
      `trendUp` counts as false, so such a card shows the minus sign. */
  function TrendLine(trend: Option<string>, trendUp: Option<bool>): (line: Option<string>)
    ensures line.Some? <==> trend.Some? && trend.value != ""
    ensures line.Some? ==> line.value == TrendLabel(trendUp == Some(true), trend.value)
  {
    if trend.Some? && trend.value != "" then
      Some(TrendLabel(trendUp == Some(true), trend.value))
    else None
  }

  /** The first card, "+12% מהחודש הקודם" trending up, shows "+12%". */
  lemma SampleTrendUp()
    ensures TrendLabel(true, "+12% מהחודש הקודם") == "+12%"
  {
    var t := "+12% מהחודש הקודם";
    assert t[1..3] == "12";
    FirstDigitRunIs(t, 1, "12");
  }

  /** The second card, "-8% מהחודש הקודם" trending down, shows "-8%". */
  lemma SampleTrendDown()
    ensures TrendLabel(false, "-8% מהחודש הקודם") == "-8%"
  {
    var t := "-8% מהחודש הקודם";
    assert t[1..2] == "8";
    FirstDigitRunIs(t, 1, "8");
  }

  /** A trend text without digits shows a bare sign. */
  lemma SampleTrendNoDigits()
    ensures TrendLabel(true, "יציב") == "+%"
  {
  }

  // The hour-bank bar

  /** The width of a bank's bar: the share of its hours that remains, in percent. */
  function BarWidth(remaining: real, total: real): (w: real)
    requires total != 0.0
    ensures w * total == remaining * 100.0
  {
    (remaining / total) * 100.0
  }

  /** The dashboard bar shows what the hour-bank screen's usage bar leaves: the two
      percentages of one bank add up to 100, and the bar lies in [0, 100] for a bank
      with no more left than its total. */
  lemma BarWidthComplementsUsage(remaining: real, total: real)
    requires total > 0.0
    ensures BarWidth(remaining, total) + HourBanks.UsagePercentage(total - remaining, total) == 100.0
    ensures 0.0 <= remaining <= total ==> 0.0 <= BarWidth(remaining, total) <= 100.0
  {
    var w := BarWidth(remaining, total);
    var u := HourBanks.UsagePercentage(total - remaining, total);
    SharesAddUp(w, u, remaining, total - remaining, total);
    if 0.0 <= remaining <= total {
      HourBanks.UsagePercentageBounds(total - remaining, total);
    }
  }

  /** Two shares of a positive total, of parts that add up to it, add up to 100 percent. */
  lemma SharesAddUp(w: real, u: real, a: real, b: real, total: real)
    requires total > 0.0 && w * total == a * 100.0 && u * total == b * 100.0 && a + b == total
    ensures w + u == 100.0
  {
    assert (w + u) * total == w * total + u * total;
  }

  // Status badges

  /** `getStatusText`: the three call statuses and the three bank statuses of the
      dashboard get Hebrew labels; any other value is shown as is. */
  function StatusText(status: string): (r: string)
    ensures status == "open" ==> r == "פתוח"
    ensures status == "in-progress" ==> r == "בטיפול"
    ensures status == "closed" ==> r == "סגור"
    ensures status == "active" ==> r == "פעיל"
    ensures status == "low" ==> r == "נמוך"
    ensures status == "expired" ==> r == "פג תוקף"
    ensures !KnownStatus(status) ==> r == status
  {
    match status
    case "open" => "פתוח"
    case "in-progress" => "בטיפול"
    case "closed" => "סגור"
    case "active" => "פעיל"
    case "low" => "נמוך"
    case "expired" => "פג תוקף"
    case _ => status
  }

  predicate KnownStatus(status: string)
  {
    status == "open" || status == "in-progress" || status == "closed"
    || status == "active" || status == "low" || status == "expired"
  }

  const Muted: string := "bg-muted text-muted-foreground"

  /** `getStatusColor`: a colour class per known status and the muted class for any other. */
  function StatusColor(status: string): (c: string)
    ensures c == Muted <==> !KnownStatus(status)
    ensures status == "closed" || status == "active" ==> c == "bg-success text-success-foreground"
    ensures status == "in-progress" || status == "low" ==> c == "bg-warning text-warning-foreground"
    ensures status == "open" ==> c == "bg-info text-info-foreground"
    ensures status == "expired" ==> c == "bg-destructive text-destructive-foreground"
  {
    match status
    case "open" => "bg-info text-info-foreground"
    case "in-progress" => "bg-warning text-warning-foreground"
    case "closed" => "bg-success text-success-foreground"
    case "active" => "bg-success text-success-foreground"
    case "low" => "bg-warning text-warning-foreground"
    case "expired" => "bg-destructive text-destructive-foreground"
    case _ => Muted
  }

  /** The dashboard labels a call status as the service-calls screen does, and the bank
      statuses it shares with the hour-banks screen as that screen does; the six known
      statuses get six different labels. */
  lemma StatusTextAgreesWithScreens(c: ServiceCalls.CallStatus, s1: string, s2: string)
    requires KnownStatus(s1) && KnownStatus(s2)
    ensures StatusText(ServiceCalls.StatusName(c)) == ServiceCalls.StatusText(ServiceCalls.StatusName(c))
    ensures StatusText("active") == HourBanks.StatusText("active")
    ensures StatusText("expired") == HourBanks.StatusText("expired")
    ensures StatusText(s1) == StatusText(s2) <==> s1 == s2
  {
  }

  /** The first dashboard bank, 8.5 of 20 hours left, draws a bar of 42.5 percent. */
  lemma SampleBarWidth()
    ensures BarWidth(8.5, 20.0) == 42.5
    ensures BarWidth(0.0, 10.0) == 0.0
  {
  }
}
