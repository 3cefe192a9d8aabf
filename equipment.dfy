/** The equipment screen: two tabs, equipment items and suppliers, sharing one search
    term; equipment also has a category selector and a status selector; each tab has
    statistics cards over its whole list, and supplier cards show a five-star rating. */
module Equipment {
  import opened Text
  import opened Views

  datatype EquipmentStatus = Available | InUse | Maintenance | Retired

  /** The string the source stores in an item's `status`. */
  function StatusName(s: EquipmentStatus): string
  {
    match s
    case Available => "available"
    case InUse => "in_use"
    case Maintenance => "maintenance"
    case Retired => "retired"
  }

  datatype Item = Item(
    id: string,
    name: string,
    category: string,
    brand: string,
    model: string,
    serialNumber: string,
    purchaseDate: string,
    purchasePrice: real,
    supplierId: string,
    supplierName: string,
    status: EquipmentStatus,
    location: string,
    assignedTo: Option<string>,
    warrantyExpiry: Option<string>,
    notes: Option<string>)

  datatype SupplierStatus = ActiveSupplier | InactiveSupplier

  datatype Supplier = Supplier(
    id: string,
    name: string,
    contactPerson: string,
    phone: string,
    email: string,
    address: string,
    categories: seq<string>,
    status: SupplierStatus,
    rating: real,
    lastOrder: Option<string>,
    totalOrders: nat,
    notes: Option<string>)

  predicate ItemMatchesSearch(item: Item, searchTerm: string)
  {
    var t := Lower(searchTerm);
    Contains(Lower(item.name), t) || Contains(Lower(item.brand), t) || Contains(Lower(item.model), t)
  }

  predicate ItemMatchesSelectors(item: Item, selectedCategory: string, selectedStatus: string)
  {
    Selects(selectedCategory, item.category) && Selects(selectedStatus, StatusName(item.status))
  }

  function KeepItem(searchTerm: string, selectedCategory: string, selectedStatus: string): Item -> bool
  {
    item => ItemMatchesSearch(item, searchTerm) && ItemMatchesSelectors(item, selectedCategory, selectedStatus)
  }

  /** `filteredEquipment`: the items that match the search, the category and the status, in list order. */
  function FilteredEquipment(items: seq<Item>, searchTerm: string, selectedCategory: string, selectedStatus: string)
    : (r: seq<Item>)
    ensures IsSubsequence(r, items)
    ensures forall i :: 0 <= i < |r| ==>
              ItemMatchesSearch(r[i], searchTerm) && ItemMatchesSelectors(r[i], selectedCategory, selectedStatus)
    ensures forall i :: 0 <= i < |items| && ItemMatchesSearch(items[i], searchTerm)
                        && ItemMatchesSelectors(items[i], selectedCategory, selectedStatus)
              ==> items[i] in r
    ensures forall x :: multiset(r)[x] == if ItemMatchesSearch(x, searchTerm) && ItemMatchesSelectors(x, selectedCategory, selectedStatus) then multiset(items)[x] else 0
  {
    FilterIsSubsequence(items, KeepItem(searchTerm, selectedCategory, selectedStatus));
    FilterMultiplicity(items, KeepItem(searchTerm, selectedCategory, selectedStatus));
    Filter(items, KeepItem(searchTerm, selectedCategory, selectedStatus))
  }

  predicate SupplierMatchesSearch(s: Supplier, searchTerm: string)
  {
    var t := Lower(searchTerm);
    Contains(Lower(s.name), t) || Contains(Lower(s.contactPerson), t)
  }

  function KeepSupplier(searchTerm: string): Supplier -> bool
  {
    s => SupplierMatchesSearch(s, searchTerm)
  }

  /** `filteredSuppliers`: the suppliers whose name or contact person holds the term, in list
      order; no category or status selector takes part. */
  function FilteredSuppliers(suppliers: seq<Supplier>, searchTerm: string): (r: seq<Supplier>)
    ensures IsSubsequence(r, suppliers)
    ensures forall i :: 0 <= i < |r| ==> SupplierMatchesSearch(r[i], searchTerm)
    ensures forall i :: 0 <= i < |suppliers| && SupplierMatchesSearch(suppliers[i], searchTerm) ==> suppliers[i] in r
    ensures forall x :: multiset(r)[x] == if SupplierMatchesSearch(x, searchTerm) then multiset(suppliers)[x] else 0
  {
    FilterIsSubsequence(suppliers, KeepSupplier(searchTerm));
    FilterMultiplicity(suppliers, KeepSupplier(searchTerm));
    Filter(suppliers, KeepSupplier(searchTerm))
  }

  /** With the status selector at "all" the equipment list is filtered by search and category alone. */
  lemma StatusAllIgnoresStatus(items: seq<Item>, searchTerm: string, selectedCategory: string)
    ensures FilteredEquipment(items, searchTerm, selectedCategory, All)
            == Filter(items, (item: Item) => ItemMatchesSearch(item, searchTerm) && Selects(selectedCategory, item.category))
  {
    FilterCongruent(items, KeepItem(searchTerm, selectedCategory, All),
                    (item: Item) => ItemMatchesSearch(item, searchTerm) && Selects(selectedCategory, item.category));
  }

  // Statistics

  function ItemHasStatus(s: EquipmentStatus): Item -> bool
  {
    (item: Item) => item.status == s
  }

  function PriceOf(item: Item): real
  {
    item.purchasePrice
  }

  datatype EquipmentStats = EquipmentStats(total: nat, available: nat, inUse: nat, maintenance: nat, totalValue: real)

  /** `equipmentStats`: over every item, whatever the search and selectors. Retired items
      enter the total but have no card of their own. */
  function EquipmentStatsOf(items: seq<Item>): (s: EquipmentStats)
    ensures s.total == |items|
    ensures s.available + s.inUse + s.maintenance + Count(items, ItemHasStatus(Retired)) == s.total
    ensures s.available + s.inUse + s.maintenance <= s.total
    ensures (forall i :: 0 <= i < |items| ==> items[i].purchasePrice >= 0.0) ==> s.totalValue >= 0.0
  {
    ItemStatusCountsPartition(items);
    var value := Sum(items, PriceOf);
    assert (forall i :: 0 <= i < |items| ==> items[i].purchasePrice >= 0.0) ==> value >= 0.0 by {
      if forall i :: 0 <= i < |items| ==> items[i].purchasePrice >= 0.0 {
        SumNonNegative(items, PriceOf);
      }
    }
    EquipmentStats(|items|, Count(items, ItemHasStatus(Available)), Count(items, ItemHasStatus(InUse)),
                   Count(items, ItemHasStatus(Maintenance)), value)
  }

  /** Every item has exactly one of the four statuses. */
  lemma {:induction false} ItemStatusCountsPartition(items: seq<Item>)
    ensures Count(items, ItemHasStatus(Available)) + Count(items, ItemHasStatus(InUse))
            + Count(items, ItemHasStatus(Maintenance)) + Count(items, ItemHasStatus(Retired)) == |items|
  {
    if items != [] {
      ItemStatusCountsPartition(items[1..]);
    }
  }

  function IsActiveSupplier(s: Supplier): bool
  {
    s.status == ActiveSupplier
  }

  function OrdersOf(s: Supplier): real
  {
    s.totalOrders as real
  }

  function RatingOf(s: Supplier): real
  {
    s.rating
  }

  /** `avgRating` is a division by the list length, so it has no value for an empty list. */
  datatype SupplierStats = SupplierStats(total: nat, active: nat, totalOrders: real, avgRating: Option<real>)

  /** `supplierStats`: over every supplier, whatever the search. */
  function SupplierStatsOf(suppliers: seq<Supplier>): (s: SupplierStats)
    ensures s.total == |suppliers|
    ensures s.active + Count(suppliers, Not(IsActiveSupplier)) == s.total
    ensures s.totalOrders >= 0.0
    ensures s.avgRating.Some? <==> suppliers != []
    ensures s.avgRating.Some? ==> s.avgRating.value * |suppliers| as real == Sum(suppliers, RatingOf)
  {
    CountComplement(suppliers, IsActiveSupplier);
    SumNonNegative(suppliers, OrdersOf);
    var n := |suppliers|;
    if n == 0 then
      SupplierStats(n, Count(suppliers, IsActiveSupplier), Sum(suppliers, OrdersOf), None)
    else
      QuotientTimes(Sum(suppliers, RatingOf), n as real);
      SupplierStats(n, Count(suppliers, IsActiveSupplier), Sum(suppliers, OrdersOf),
                    Some(Sum(suppliers, RatingOf) / n as real))
  }

  /** Multiplying a quotient by its non-zero divisor gives back the dividend. */
  lemma QuotientTimes(total: real, n: real)
    requires n != 0.0
    ensures (total / n) * n == total
  {
  }

  /** The average rating lies within any range that holds every rating, so ratings on
      the 0 to 5 scale average on that scale. */
  lemma AvgRatingBetween(suppliers: seq<Supplier>, lo: real, hi: real)
    requires suppliers != []
    requires forall i :: 0 <= i < |suppliers| ==> lo <= suppliers[i].rating <= hi
    ensures lo <= SupplierStatsOf(suppliers).avgRating.value <= hi
  {
    var n := |suppliers| as real;
    var total := Sum(suppliers, RatingOf);
    assert forall i :: 0 <= i < |suppliers| ==> lo <= RatingOf(suppliers[i]) <= hi;
    SumBetween(suppliers, RatingOf, lo, hi);
    QuotientBetween(lo, hi, total, n);
  }

  /** A quotient by a positive `n` of a total within `n` times [lo, hi] lies within [lo, hi]. */
  lemma QuotientBetween(lo: real, hi: real, total: real, n: real)
    requires n > 0.0 && lo * n <= total <= hi * n
    ensures lo <= total / n <= hi
  {
    var q := total / n;
    assert q * n == total;
  }

  // Rating stars

  /** Star number `i` (counted from 1) is drawn filled iff `i <= rating`. */
  predicate StarFilled(i: int, rating: real)
  {
    i as real <= rating
  }

  /** `getRatingStars`: five stars, star k+1 at index k, filled iff its number does not exceed the rating. */
  method RatingStars(rating: real) returns (stars: seq<bool>)
    ensures |stars| == 5
    ensures forall k :: 0 <= k < 5 ==> stars[k] == StarFilled(k + 1, rating)
  {
    stars := [];
    for i := 1 to 6
      invariant |stars| == i - 1
      invariant forall k :: 0 <= k < i - 1 ==> stars[k] == StarFilled(k + 1, rating)
    {
      stars := stars + [StarFilled(i, rating)];
    }
  }

  /** The number of filled stars in a row. */
  function FilledCount(stars: seq<bool>): (n: nat)
    ensures n <= |stars|
  {
    if stars == [] then 0 else (if stars[0] then 1 else 0) + FilledCount(stars[1..])
  }

  /** A row whose first `m` stars are filled and the rest empty has `m` filled stars. */
  lemma {:induction false} FilledPrefixCount(stars: seq<bool>, m: nat)
    requires m <= |stars|
    requires forall k :: 0 <= k < |stars| ==> (stars[k] <==> k < m)
    ensures FilledCount(stars) == m
  {
    if stars != [] {
      if m == 0 {
        FilledPrefixCount(stars[1..], 0);
      } else {
        FilledPrefixCount(stars[1..], m - 1);
      }
    }
  }

  /** The whole part of the rating, kept within 0 to 5. */
  function StarsFor(rating: real): (n: nat)
    ensures n <= 5
  {
    if rating.Floor < 0 then 0 else if rating.Floor > 5 then 5 else rating.Floor
  }

  /** Any row the method can return has its filled stars first, and as many of them as the
      whole part of the rating, between 0 and 5. */
  lemma RatingStarsCount(rating: real, stars: seq<bool>)
    requires |stars| == 5
    requires forall k :: 0 <= k < 5 ==> stars[k] == StarFilled(k + 1, rating)
    ensures forall j, k :: 0 <= j <= k < 5 && stars[k] ==> stars[j]
    ensures FilledCount(stars) == StarsFor(rating)
  {
    forall k | 0 <= k < 5
      ensures stars[k] <==> k < StarsFor(rating)
    {
      assert StarFilled(k + 1, rating) <==> k + 1 <= rating.Floor;
    }
    FilledPrefixCount(stars, StarsFor(rating));
  }

  // The empty state

  datatype Tab = EquipmentTab | SuppliersTab

  /** The empty-state card under the active tab: it appears iff that tab's list is empty;
      its message and add button follow the search term as on every other screen. */
  function TabEmptyState(tab: Tab, shownItems: nat, shownSuppliers: nat, searchTerm: string): (e: EmptyState)
    ensures e.EmptyCard? <==> (tab == EquipmentTab && shownItems == 0) || (tab == SuppliersTab && shownSuppliers == 0)
    ensures e.EmptyCard? ==> (e.message == TryOtherSearchTerms <==> searchTerm != "")
    ensures e.EmptyCard? ==> (e.showsAddButton <==> searchTerm == "")
  {
    EmptyStateFor(if tab == EquipmentTab then shownItems else shownSuppliers, searchTerm)
  }

  // The screen state and its events

  /** The four `useState` values of the screen. */
  datatype Screen = Screen(searchTerm: string, selectedCategory: string, selectedStatus: string, activeTab: Tab)

  const Initial: Screen := Screen("", All, All, EquipmentTab)

  /** The four category buttons of the equipment tab. */
  datatype CategoryButton = AllCategories | Network | Computers | Storage

  function ButtonCategory(b: CategoryButton): string
  {
    match b
    case AllCategories => All
    case Network => "רשת"
    case Computers => "מחשבים"
    case Storage => "אחסון"
  }

  /** What the user can do on the screen: type in either tab's search box (both write the
      same term), press a category button, or switch tabs. No control sets the status. */
  datatype Event = TypeSearch(term: string) | PressCategory(button: CategoryButton) | SwitchTab(tab: Tab)

  function Step(s: Screen, e: Event): (t: Screen)
    ensures t.selectedStatus == s.selectedStatus
    ensures e.TypeSearch? ==> t == s.(searchTerm := e.term)
    ensures e.PressCategory? ==> t == s.(selectedCategory := ButtonCategory(e.button))
    ensures e.SwitchTab? ==> t == s.(activeTab := e.tab)
  {
    match e
    case TypeSearch(term) => s.(searchTerm := term)
    case PressCategory(b) => s.(selectedCategory := ButtonCategory(b))
    case SwitchTab(tab) => s.(activeTab := tab)
  }

  /** The screen after a sequence of user actions, in order: the status selector is never
      touched, the search term changes only by typing, and a typed term stays until the
      next one. */
  function Run(s: Screen, events: seq<Event>): (t: Screen)
    ensures t.selectedStatus == s.selectedStatus
    ensures (forall k :: 0 <= k < |events| ==> !events[k].TypeSearch?) ==> t.searchTerm == s.searchTerm
    ensures events != [] && events[|events| - 1].TypeSearch? ==> t.searchTerm == events[|events| - 1].term
    decreases |events|
  {
    if events == [] then s else Run(Step(s, events[0]), events[1..])
  }

  /** The category selector only ever holds "all" or one of the three button categories. */
  predicate KnownCategory(c: string)
  {
    c == All || c == "רשת" || c == "מחשבים" || c == "אחסון"
  }

  /** Whatever the user does, the status selector stays "all" and the category selector
      holds a button's category, so the status test of the filter always passes. */
  lemma {:induction false} StatusSelectorStaysAll(events: seq<Event>)
    ensures Run(Initial, events).selectedStatus == All
    ensures KnownCategory(Run(Initial, events).selectedCategory)
  {
    RunKeeps(Initial, events);
  }

  lemma {:induction false} RunKeeps(s: Screen, events: seq<Event>)
    requires s.selectedStatus == All && KnownCategory(s.selectedCategory)
    ensures Run(s, events).selectedStatus == All
    ensures KnownCategory(Run(s, events).selectedCategory)
    decreases |events|
  {
    if events != [] {
      RunKeeps(Step(s, events[0]), events[1..]);
    }
  }

  /** The equipment list a screen state shows: items in list order, each matching the
      state's term, category and status. */
  function ShownItems(s: Screen, items: seq<Item>): (r: seq<Item>)
    ensures IsSubsequence(r, items)
    ensures forall i :: 0 <= i < |r| ==>
              ItemMatchesSearch(r[i], s.searchTerm) && ItemMatchesSelectors(r[i], s.selectedCategory, s.selectedStatus)
  {
    FilteredEquipment(items, s.searchTerm, s.selectedCategory, s.selectedStatus)
  }

  /** The supplier list a screen state shows: suppliers in list order, each matching the
      state's term, whatever the category, status or tab. */
  function ShownSuppliers(s: Screen, suppliers: seq<Supplier>): (r: seq<Supplier>)
    ensures IsSubsequence(r, suppliers)
    ensures forall i :: 0 <= i < |r| ==> SupplierMatchesSearch(r[i], s.searchTerm)
  {
    FilteredSuppliers(suppliers, s.searchTerm)
  }

  /** One search term serves both tabs: a term typed on either tab filters both lists,
      and switching tabs leaves both lists as they were. */
  lemma SearchTermShared(s: Screen, term: string, tab: Tab, items: seq<Item>, suppliers: seq<Supplier>)
    ensures ShownSuppliers(Step(s, TypeSearch(term)), suppliers) == FilteredSuppliers(suppliers, term)
    ensures ShownItems(Step(s, TypeSearch(term)), items)
            == FilteredEquipment(items, term, s.selectedCategory, s.selectedStatus)
    ensures ShownItems(Step(s, SwitchTab(tab)), items) == ShownItems(s, items)
    ensures ShownSuppliers(Step(s, SwitchTab(tab)), suppliers) == ShownSuppliers(s, suppliers)
  {
  }

  /** Pressing a category button changes the equipment list only. */
  lemma CategoryLeavesSuppliers(s: Screen, b: CategoryButton, suppliers: seq<Supplier>)
    ensures ShownSuppliers(Step(s, PressCategory(b)), suppliers) == ShownSuppliers(s, suppliers)
  {
  }

  // Labels

  /** `getEquipmentStatusText`: a Hebrew label for each status; any other value is shown as is. */
  function StatusText(status: string): (r: string)
    ensures status == "available" ==> r == "זמין"
    ensures status == "in_use" ==> r == "בשימוש"
    ensures status == "maintenance" ==> r == "בתחזוקה"
    ensures status == "retired" ==> r == "הושבת"
    ensures status != "available" && status != "in_use" && status != "maintenance" && status != "retired" ==> r == status
  {
    match status
    case "available" => "זמין"
    case "in_use" => "בשימוש"
    case "maintenance" => "בתחזוקה"
    case "retired" => "הושבת"
    case _ => status
  }

  /** The four statuses get four different labels. */
  lemma StatusTextDistinguishes(s1: EquipmentStatus, s2: EquipmentStatus)
    ensures StatusText(StatusName(s1)) == StatusText(StatusName(s2)) <==> s1 == s2
  {
  }

  // Sample data

  const Item1: Item :=
    Item("1", "נתב Wi-Fi 6", "רשת", "TP-Link", "AX3000", "TPL-AX3000-001", "2024-01-15", 450.0, "1",
         "טכנולוגיות מתקדמות", InUse, "מחסן מרכזי", Some("חברת טק סולושנס"), Some("2026-01-15"),
         Some("מותקן אצל הלקוח ב-15/01/2024"))
  const Item2: Item :=
    Item("2", "מחשב נייד Dell", "מחשבים", "Dell", "Latitude 5520", "DL-LAT5520-002", "2024-02-01", 3200.0, "2",
         "מחשבים ופתרונות", Available, "מחסן מרכזי", None, Some("2027-02-01"), Some("מחשב חדש, מוכן להתקנה"))
  const Item3: Item :=
    Item("3", "מקרן NEC", "תצוגה", "NEC", "V302X", "NEC-V302X-003", "2023-12-10", 2800.0, "3",
         "פתרונות AV", Maintenance, "מעבדה", Some("משרד עורכי דין רוזן"), Some("2025-12-10"),
         Some("בתיקון - נורת המקרן"))
  const Item4: Item :=
    Item("4", "מערכת גיבוי Synology", "אחסון", "Synology", "DS920+", "SYN-DS920-004", "2024-01-20", 1800.0, "1",
         "טכנולוגיות מתקדמות", InUse, "אצל לקוח", Some("קליניקת השיניים"), Some("2026-01-20"), None)

  /** The four items the screen is built with. */
  const SampleItems: seq<Item> := [Item1, Item2, Item3, Item4]

  const Supplier1: Supplier :=
    Supplier("1", "טכנולוגיות מתקדמות בע״מ", "אבי כהן", "03-9876543", "avi@techadvanced.co.il",
             "רחוב הרצל 25, תל אביב", ["רשת", "אחסון", "אבטחה"], ActiveSupplier, 4.8, Some("2024-01-20"), 15,
             Some("ספק מעולה, משלוח מהיר"))
  const Supplier2: Supplier :=
    Supplier("2", "מחשבים ופתרונות בע״מ", "דנה לוי", "02-5554321", "dana@computers-sol.co.il",
             "רחוב בן יהודה 12, ירושלים", ["מחשבים", "רכיבים", "תוכנה"], ActiveSupplier, 4.5, Some("2024-02-01"), 8,
             Some("מחירים תחרותיים, שירות טוב"))
  const Supplier3: Supplier :=
    Supplier("3", "פתרונות AV בע״מ", "מיכל שמש", "09-7778888", "michal@av-solutions.co.il",
             "רחוב וייצמן 8, נתניה", ["תצוגה", "שמע", "ועידה"], ActiveSupplier, 4.2, Some("2023-12-10"), 4,
             Some("מתמחים בפתרונות AV"))
  const Supplier4: Supplier :=
    Supplier("4", "חלקי חילוף מהירים", "רון דוד", "04-1112223", "ron@fastparts.co.il",
             "רחוב הנביאים 15, חיפה", ["רכיבים", "חלקי חילוף"], InactiveSupplier, 3.8, Some("2023-08-15"), 12,
             Some("ספק לא פעיל יותר"))

  /** The four suppliers the screen is built with. */
  const SampleSuppliers: seq<Supplier> := [Supplier1, Supplier2, Supplier3, Supplier4]

  /** On the sample items the cards read 4 items, 1 available, 2 in use, 1 in maintenance,
      and a total value of 8250. */
  lemma SampleEquipmentStats()
    ensures EquipmentStatsOf(SampleItems) == EquipmentStats(4, 1, 2, 1, 8250.0)
  {
    var xs := SampleItems;
    assert xs[1..] == [Item2, Item3, Item4];
    assert xs[1..][1..] == [Item3, Item4];
    assert xs[1..][1..][1..] == [Item4];
    assert [Item4][1..] == [];
    assert Sum([Item4], PriceOf) == 1800.0;
    assert Sum([Item3, Item4], PriceOf) == 4600.0;
    assert Sum([Item2, Item3, Item4], PriceOf) == 7800.0;
    assert Filter([Item4], ItemHasStatus(Available)) == [];
    assert Filter([Item3, Item4], ItemHasStatus(Available)) == [];
    assert Filter([Item2, Item3, Item4], ItemHasStatus(Available)) == [Item2];
    assert Filter([Item4], ItemHasStatus(InUse)) == [Item4];
    assert Filter([Item3, Item4], ItemHasStatus(InUse)) == [Item4];
    assert Filter([Item2, Item3, Item4], ItemHasStatus(InUse)) == [Item4];
    assert Filter([Item4], ItemHasStatus(Maintenance)) == [];
    assert Filter([Item3, Item4], ItemHasStatus(Maintenance)) == [Item3];
    assert Filter([Item2, Item3, Item4], ItemHasStatus(Maintenance)) == [Item3];
  }

  /** On the sample suppliers the cards read 4 suppliers, 3 active and 39 orders, and the
      average rating, 4.325, lies on the five-star scale. */
  lemma SampleSupplierStats()
    ensures SupplierStatsOf(SampleSuppliers) == SupplierStats(4, 3, 39.0, Some(4.325))
  {
    var xs := SampleSuppliers;
    assert xs[1..] == [Supplier2, Supplier3, Supplier4];
    assert xs[1..][1..] == [Supplier3, Supplier4];
    assert xs[1..][1..][1..] == [Supplier4];
    assert [Supplier4][1..] == [];
    assert Sum([Supplier4], OrdersOf) == 12.0;
    assert Sum([Supplier3, Supplier4], OrdersOf) == 16.0;
    assert Sum([Supplier2, Supplier3, Supplier4], OrdersOf) == 24.0;
    assert Sum([Supplier4], RatingOf) == 3.8;
    assert Sum([Supplier3, Supplier4], RatingOf) == 8.0;
    assert Sum([Supplier2, Supplier3, Supplier4], RatingOf) == 12.5;
    assert Filter([Supplier4], IsActiveSupplier) == [];
    assert Filter([Supplier3, Supplier4], IsActiveSupplier) == [Supplier3];
    assert Filter([Supplier2, Supplier3, Supplier4], IsActiveSupplier) == [Supplier2, Supplier3];
  }

  /** The best sample supplier, rated 4.8, gets four filled stars; the inactive one, rated
      3.8, gets three. */
  lemma SampleStars()
    ensures StarsFor(Supplier1.rating) == 4
    ensures StarsFor(Supplier4.rating) == 3
  {
  }
}
