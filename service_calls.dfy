/** The service-calls screen: a fixed list of calls, a search box over client,
    description and technician, a status selector, and statistics cards over all calls. */
module ServiceCalls {
  import opened Text
  import opened Views

  datatype CallStatus = Open | InProgress | Closed

  /** The string the source stores in `status`. */
  function StatusName(s: CallStatus): string
  {
    match s
    case Open => "open"
    case InProgress => "in-progress"
    case Closed => "closed"
  }

  datatype BillingType = HourBankBilling | HourlyBilling

  datatype ServiceCall = ServiceCall(
    id: string,
    client: string,
    technician: string,
    date: string,
    description: string,
    duration: real,
    status: CallStatus,
    billingType: BillingType,
    hourBankId: Option<string>,
    equipmentSupplied: seq<string>,
    notes: Option<string>,
    createdAt: string)

  predicate MatchesSearch(c: ServiceCall, searchTerm: string)
  {
    var t := Lower(searchTerm);
    Contains(Lower(c.client), t) || Contains(Lower(c.description), t) || Contains(Lower(c.technician), t)
  }

  predicate MatchesStatus(c: ServiceCall, selectedStatus: string)
  {
    Selects(selectedStatus, StatusName(c.status))
  }

  function Keep(searchTerm: string, selectedStatus: string): ServiceCall -> bool
  {
    c => MatchesSearch(c, searchTerm) && MatchesStatus(c, selectedStatus)
  }

  /** `filteredCalls`: the calls that match both the search and the status, in list order. */
  function FilteredCalls(calls: seq<ServiceCall>, searchTerm: string, selectedStatus: string): (r: seq<ServiceCall>)
    ensures IsSubsequence(r, calls)
    ensures forall i :: 0 <= i < |r| ==> MatchesSearch(r[i], searchTerm) && MatchesStatus(r[i], selectedStatus)
    ensures forall i :: 0 <= i < |calls| && MatchesSearch(calls[i], searchTerm) && MatchesStatus(calls[i], selectedStatus)
              ==> calls[i] in r
    ensures forall x :: multiset(r)[x] == if MatchesSearch(x, searchTerm) && MatchesStatus(x, selectedStatus) then multiset(calls)[x] else 0
  {
    FilterIsSubsequence(calls, Keep(searchTerm, selectedStatus));
    FilterMultiplicity(calls, Keep(searchTerm, selectedStatus));
    Filter(calls, Keep(searchTerm, selectedStatus))
  }

  /** With no search term and the "all" status every call is shown, in order. */
  lemma EmptySearchShowsAll(calls: seq<ServiceCall>)
    ensures FilteredCalls(calls, "", All) == calls
  {
    forall i | 0 <= i < |calls| ensures Keep("", All)(calls[i]) {
      EmptyOccursEverywhere(Lower(calls[i].client));
    }
    FilterKeepsAll(calls, Keep("", All));
  }

  /** The empty-state card appears iff no call passes the filter. */
  lemma EmptyStateIffNoMatch(calls: seq<ServiceCall>, searchTerm: string, selectedStatus: string)
    ensures EmptyStateFor(|FilteredCalls(calls, searchTerm, selectedStatus)|, searchTerm).EmptyCard?
            <==> forall i :: 0 <= i < |calls| ==> !(MatchesSearch(calls[i], searchTerm) && MatchesStatus(calls[i], selectedStatus))
  {
    EmptyCardIffNoneKept(calls, Keep(searchTerm, selectedStatus), searchTerm);
  }

  function HasStatus(s: CallStatus): ServiceCall -> bool
  {
    (c: ServiceCall) => c.status == s
  }

  function Duration(c: ServiceCall): real
  {
    c.duration
  }

  /** The statistics cards: they take the whole list and nothing of the filter state. */
  datatype CallStatistics = CallStatistics(totalCalls: nat, totalHours: real, openCalls: nat, inProgressCalls: nat)

  /** `serviceCalls.length`, `totalHours`, `openCalls` and `inProgressCalls`. */
  function Statistics(calls: seq<ServiceCall>): (s: CallStatistics)
    ensures s.totalCalls == |calls|
    ensures s.openCalls + s.inProgressCalls + Count(calls, HasStatus(Closed)) == s.totalCalls
    ensures (forall i :: 0 <= i < |calls| ==> calls[i].duration >= 0.0) ==> s.totalHours >= 0.0
  {
    StatusCountsPartition(calls);
    var hours := Sum(calls, Duration);
    assert (forall i :: 0 <= i < |calls| ==> calls[i].duration >= 0.0) ==> hours >= 0.0 by {
      if forall i :: 0 <= i < |calls| ==> calls[i].duration >= 0.0 {
        SumNonNegative(calls, Duration);
      }
    }
    CallStatistics(|calls|, hours, Count(calls, HasStatus(Open)), Count(calls, HasStatus(InProgress)))
  }

  /** Every call is open, in progress or closed, so the three counts add up to the list length. */
  lemma {:induction false} StatusCountsPartition(calls: seq<ServiceCall>)
    ensures Count(calls, HasStatus(Open)) + Count(calls, HasStatus(InProgress)) + Count(calls, HasStatus(Closed)) == |calls|
  {
    if calls != [] {
      StatusCountsPartition(calls[1..]);
    }
  }

  /** `getStatusText`: a Hebrew label for each status; any other value is shown as is. */
  function StatusText(status: string): (r: string)
    ensures status == "open" ==> r == "פתוח"
    ensures status == "in-progress" ==> r == "בטיפול"
    ensures status == "closed" ==> r == "סגור"
    ensures status != "open" && status != "in-progress" && status != "closed" ==> r == status
  {
    match status
    case "open" => "פתוח"
    case "in-progress" => "בטיפול"
    case "closed" => "סגור"
    case _ => status
  }

  /** The string the source stores in `billingType`. */
  function BillingName(b: BillingType): string
  {
    match b
    case HourBankBilling => "hour_bank"
    case HourlyBilling => "hourly"
  }

  /** `getBillingTypeText`: a Hebrew label for each billing type; any other value is shown as is. */
  function BillingTypeText(billingType: string): (r: string)
    ensures billingType == "hour_bank" ==> r == "בנק שעות"
    ensures billingType == "hourly" ==> r == "חיוב שעתי"
    ensures billingType != "hour_bank" && billingType != "hourly" ==> r == billingType
  {
    match billingType
    case "hour_bank" => "בנק שעות"
    case "hourly" => "חיוב שעתי"
    case _ => billingType
  }

  /** Every status and billing type of a call gets its own label, never its raw name. */
  lemma LabelsDistinguish(s1: CallStatus, s2: CallStatus, b1: BillingType, b2: BillingType)
    ensures StatusText(StatusName(s1)) == StatusText(StatusName(s2)) <==> s1 == s2
    ensures StatusText(StatusName(s1)) != StatusName(s2)
    ensures BillingTypeText(BillingName(b1)) == BillingTypeText(BillingName(b2)) <==> b1 == b2
    ensures BillingTypeText(BillingName(b1)) != BillingName(b2)
  {
  }

  const Call1: ServiceCall :=
    ServiceCall("1", "חברת טק סולושנס בע״מ", "יוסי כהן", "2024-01-15",
                "פתרון בעיה בשרת המייל - שרת Exchange לא מגיב כראוי, בוצע restart ועדכון התוכנה",
                2.5, Open, HourBankBilling, Some("1"), ["כבל רשת", "מתאם USB"],
                Some("נדרש מעקב נוסף בשבוע הבא"), "2024-01-15 09:30")
  const Call2: ServiceCall :=
    ServiceCall("2", "משרד עורכי דין רוזן ושות׳", "שרה לוי", "2024-01-14",
                "עדכון מערכת רישוי Microsoft 365 והוספת משתמשים חדשים",
                1.5, InProgress, HourBankBilling, Some("2"), [], None, "2024-01-14 14:15")
  const Call3: ServiceCall :=
    ServiceCall("3", "קליניקת השיניים ד״ר לוי", "דני אברהם", "2024-01-13",
                "התקנת תוכנת אנטי וירוס על כל המחשבים במשרד",
                3.0, Closed, HourlyBilling, None, ["רישיון אנטי וירוס"], None, "2024-01-13 10:00")
  const Call4: ServiceCall :=
    ServiceCall("4", "חברת טק סולושנס בע״מ", "יוסי כהן", "2024-01-12",
                "גיבוי נתונים חודשי ובדיקת תקינות המערכת",
                1.0, Closed, HourBankBilling, Some("1"), [], None, "2024-01-12 16:30")

  /** The four calls the screen is built with. */
  const SampleCalls: seq<ServiceCall> := [Call1, Call2, Call3, Call4]

  /** On the sample calls the hours card reads 8, one call is open and one in progress. */
  lemma SampleStatistics()
    ensures Statistics(SampleCalls) == CallStatistics(4, 8.0, 1, 1)
  {
    var xs := SampleCalls;
    assert xs[1..] == [Call2, Call3, Call4];
    assert xs[1..][1..] == [Call3, Call4];
    assert xs[1..][1..][1..] == [Call4];
    assert Sum([Call4], Duration) == 1.0;
    assert Sum([Call3, Call4], Duration) == 4.0;
    assert Sum([Call2, Call3, Call4], Duration) == 5.5;
    assert [Call4][1..] == [];
    assert Filter([Call4], HasStatus(Open)) == [];
    assert Filter([Call3, Call4], HasStatus(Open)) == [];
    assert Filter([Call2, Call3, Call4], HasStatus(Open)) == [];
    assert Filter([Call4], HasStatus(InProgress)) == [];
    assert Filter([Call3, Call4], HasStatus(InProgress)) == [];
    assert Filter([Call2, Call3, Call4], HasStatus(InProgress)) == [Call2];
  }
}
