/** The hour-banks screen: prepaid pools of service hours, a search box over the
    client name, a status selector, statistics over all banks, a usage bar per bank
    and a warning when few hours remain. */
module HourBanks {
  import opened Text
  import opened Views

  datatype BankStatus = Active | Expired | Depleted | Warning

  /** The string the source stores in `status`. */
  function StatusName(s: BankStatus): string
  {
    match s
    case Active => "active"
    case Expired => "expired"
    case Depleted => "depleted"
    case Warning => "warning"
  }

  datatype HourBank = HourBank(
    id: string,
    clientId: string,
    clientName: string,
    totalHours: real,
    usedHours: real,
    remainingHours: real,
    hourlyRate: real,
    totalValue: real,
    usedValue: real,
    remainingValue: real,
    purchaseDate: string,
    expirationDate: string,
    status: BankStatus,
    isAutoRenewal: bool)

  /** The relation between the hour and value fields that the literals are entered
      with; nothing in the screen recomputes or checks it. */
  predicate Consistent(b: HourBank)
  {
    b.remainingHours == b.totalHours - b.usedHours && b.remainingValue == b.totalValue - b.usedValue
  }

  predicate MatchesSearch(b: HourBank, searchTerm: string)
  {
    Contains(Lower(b.clientName), Lower(searchTerm))
  }

  predicate MatchesStatus(b: HourBank, selectedStatus: string)
  {
    Selects(selectedStatus, StatusName(b.status))
  }

  function Keep(searchTerm: string, selectedStatus: string): HourBank -> bool
  {
    b => MatchesSearch(b, searchTerm) && MatchesStatus(b, selectedStatus)
  }

  /** `filteredHourBanks`: the banks that match both the search and the status, in list order. */
  function FilteredHourBanks(banks: seq<HourBank>, searchTerm: string, selectedStatus: string): (r: seq<HourBank>)
    ensures IsSubsequence(r, banks)
    ensures forall i :: 0 <= i < |r| ==> MatchesSearch(r[i], searchTerm) && MatchesStatus(r[i], selectedStatus)
    ensures forall i :: 0 <= i < |banks| && MatchesSearch(banks[i], searchTerm) && MatchesStatus(banks[i], selectedStatus)
              ==> banks[i] in r
    ensures forall x :: multiset(r)[x] == if MatchesSearch(x, searchTerm) && MatchesStatus(x, selectedStatus) then multiset(banks)[x] else 0
  {
    FilterIsSubsequence(banks, Keep(searchTerm, selectedStatus));
    FilterMultiplicity(banks, Keep(searchTerm, selectedStatus));
    Filter(banks, Keep(searchTerm, selectedStatus))
  }

  /** The empty-state card appears iff no bank passes the filter. */
  lemma EmptyStateIffNoMatch(banks: seq<HourBank>, searchTerm: string, selectedStatus: string)
    ensures EmptyStateFor(|FilteredHourBanks(banks, searchTerm, selectedStatus)|, searchTerm).EmptyCard?
            <==> forall i :: 0 <= i < |banks| ==> !(MatchesSearch(banks[i], searchTerm) && MatchesStatus(banks[i], selectedStatus))
  {
    EmptyCardIffNoneKept(banks, Keep(searchTerm, selectedStatus), searchTerm);
  }

  function TotalHoursOf(b: HourBank): real { b.totalHours }
  function UsedHoursOf(b: HourBank): real { b.usedHours }
  function RemainingHoursOf(b: HourBank): real { b.remainingHours }
  function TotalValueOf(b: HourBank): real { b.totalValue }
  function UsedValueOf(b: HourBank): real { b.usedValue }
  function RemainingValueOf(b: HourBank): real { b.remainingValue }

  function IsActive(b: HourBank): bool
  {
    b.status == Active
  }

  datatype Statistics = Statistics(
    totalBanks: nat,
    activeBanks: nat,
    totalValue: real,
    usedValue: real,
    remainingValue: real,
    totalHours: real,
    usedHours: real,
    remainingHours: real)

  /** `totalStatistics`: folds over every bank, whatever the search and status. */
  function TotalStatistics(banks: seq<HourBank>): (s: Statistics)
    ensures s.totalBanks == |banks|
    ensures s.activeBanks + Count(banks, Not(IsActive)) == s.totalBanks
    ensures (forall i :: 0 <= i < |banks| ==> Consistent(banks[i])) ==>
              s.remainingHours == s.totalHours - s.usedHours && s.remainingValue == s.totalValue - s.usedValue
  {
    CountComplement(banks, IsActive);
    var s := Statistics(|banks|, Count(banks, IsActive),
                        Sum(banks, TotalValueOf), Sum(banks, UsedValueOf), Sum(banks, RemainingValueOf),
                        Sum(banks, TotalHoursOf), Sum(banks, UsedHoursOf), Sum(banks, RemainingHoursOf));
    assert (forall i :: 0 <= i < |banks| ==> Consistent(banks[i])) ==>
             s.remainingHours == s.totalHours - s.usedHours && s.remainingValue == s.totalValue - s.usedValue by {
      if forall i :: 0 <= i < |banks| ==> Consistent(banks[i]) {
        SumDifference(banks, RemainingHoursOf, TotalHoursOf, UsedHoursOf);
        SumDifference(banks, RemainingValueOf, TotalValueOf, UsedValueOf);
      }
    }
    s
  }

  /** A bank in status 'warning' is not an active bank. */
  lemma WarningBanksAreNotActive(banks: seq<HourBank>, i: nat)
    requires i < |banks| && banks[i].status == Warning
    ensures TotalStatistics(banks).activeBanks < |banks|
  {
    CountComplement(banks, IsActive);
    assert Not(IsActive)(banks[i]);
    assert banks[i] in Filter(banks, Not(IsActive));
  }

  /** `getUsagePercentage`: the share of the bank already used, in percent. */
  function UsagePercentage(used: real, total: real): (p: real)
    requires total != 0.0
    ensures p * total == used * 100.0
  {
    (used / total) * 100.0
  }

  /** For a bank whose usage does not exceed its total the percentage lies in [0, 100]. */
  lemma UsagePercentageBounds(used: real, total: real)
    requires total > 0.0 && 0.0 <= used <= total
    ensures 0.0 <= UsagePercentage(used, total) <= 100.0
  {
    var p := UsagePercentage(used, total);
    assert p * total == used * 100.0;
    assert p * total <= total * 100.0;
  }

  datatype ProgressColor = Green | Yellow | Red

  /** How alarming a colour is: green, then yellow, then red. */
  function Severity(c: ProgressColor): nat
  {
    match c
    case Green => 0
    case Yellow => 1
    case Red => 2
  }

  /** The colour `getProgressColor` would give a usage percentage: red from 80 percent,
      yellow from 60, green below. The screen defines the helper but never applies it. */
  function ProgressColorFor(percentage: real): (c: ProgressColor)
    ensures c == Red <==> percentage >= 80.0
    ensures c == Yellow <==> 60.0 <= percentage < 80.0
    ensures c == Green <==> percentage < 60.0
  {
    if percentage >= 80.0 then Red
    else if percentage >= 60.0 then Yellow
    else Green
  }

  /** More usage never gives a less alarming colour. */
  lemma ProgressColorMonotone(p: real, q: real)
    requires p <= q
    ensures Severity(ProgressColorFor(p)) <= Severity(ProgressColorFor(q))
  {
  }

  /** The low-hours banner of a bank card: only an active bank can show it, and only
      with at most ten hours left. */
  predicate ShowsLowHoursWarning(b: HourBank): (w: bool)
    ensures b.status != Active ==> !w
    ensures b.remainingHours > 10.0 ==> !w
  {
    b.remainingHours <= 10.0 && b.status == Active
  }

  /** A consistent active bank warns exactly when its used hours come within ten of its total. */
  lemma LowHoursWarningIff(b: HourBank)
    requires Consistent(b)
    ensures ShowsLowHoursWarning(b) <==> b.status == Active && b.usedHours >= b.totalHours - 10.0
  {
  }

  /** `getStatusText`: a Hebrew label for each status; any other value is shown as is. */
  function StatusText(status: string): (r: string)
    ensures status == "active" ==> r == "פעיל"
    ensures status == "expired" ==> r == "פג תוקף"
    ensures status == "depleted" ==> r == "מוצה"
    ensures status == "warning" ==> r == "אזהרה"
    ensures status != "active" && status != "expired" && status != "depleted" && status != "warning" ==> r == status
  {
    match status
    case "active" => "פעיל"
    case "expired" => "פג תוקף"
    case "depleted" => "מוצה"
    case "warning" => "אזהרה"
    case _ => status
  }

  const Bank1: HourBank :=
    HourBank("1", "2", "משרד עורכי דין רוזן ושות׳", 100.0, 65.0, 35.0, 350.0, 35000.0, 22750.0, 12250.0,
             "2024-01-05", "2024-12-31", Active, true)
  const Bank2: HourBank :=
    HourBank("2", "4", "חברת פיננסים בע״מ", 50.0, 42.0, 8.0, 400.0, 20000.0, 16800.0, 3200.0,
             "2024-02-01", "2024-08-31", Warning, false)
  const Bank3: HourBank :=
    HourBank("3", "5", "מרפאה פרטית ד״ר שמש", 30.0, 30.0, 0.0, 300.0, 9000.0, 9000.0, 0.0,
             "2023-12-01", "2024-06-30", Depleted, false)
  const Bank4: HourBank :=
    HourBank("4", "6", "חברת הנדסה בע״מ", 200.0, 45.0, 155.0, 380.0, 76000.0, 17100.0, 58900.0,
             "2024-03-15", "2025-03-15", Active, true)

  /** The four banks the screen is built with. */
  const SampleBanks: seq<HourBank> := [Bank1, Bank2, Bank3, Bank4]

  /** Every sample bank was entered consistently, so the aggregated remaining hours and
      value are the totals minus the used amounts. */
  lemma SampleBanksConsistent()
    ensures forall i :: 0 <= i < |SampleBanks| ==> Consistent(SampleBanks[i])
    ensures TotalStatistics(SampleBanks).remainingHours
            == TotalStatistics(SampleBanks).totalHours - TotalStatistics(SampleBanks).usedHours
  {
  }

  /** Bank 1, 65 of 100 hours used, has 35 hours left, shows 65 percent used, and gets
      yellow from `getProgressColor`; it shows no banner. */
  lemma SampleBank1Usage()
    ensures Bank1.remainingHours == 35.0
    ensures UsagePercentage(Bank1.usedHours, Bank1.totalHours) == 65.0
    ensures ProgressColorFor(UsagePercentage(Bank1.usedHours, Bank1.totalHours)) == Yellow
    ensures !ShowsLowHoursWarning(Bank1)
  {
  }

  /** Bank 2 has 8 hours left but is in status 'warning', so no banner is shown for it. */
  lemma SampleBank2NoBanner()
    ensures Bank2.remainingHours <= 10.0 && !ShowsLowHoursWarning(Bank2)
  {
  }
}
