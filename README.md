# An IT-services office dashboard, modelled in Dafny

The system is a single-page React dashboard for a small IT-support business. It tracks
clients, service calls, prepaid hour banks, invoices, equipment and suppliers, and shows
reports. Every screen works on a hard-coded list of records. Each screen follows one
pattern:

- the list shown is the full list filtered by a case-insensitive substring search over a
  few text fields, and by category or status selectors whose sentinel value `"all"`
  accepts every record;
- the statistics cards are counts and sums over the whole list, not over what is shown;
- an empty-state card appears when nothing is shown, and its text and add button depend
  on whether a search term is typed.

This project states that pattern once, in the `Views` and `Text` modules:

- `Filter`, `Count`, `Sum`, the empty-state rule, ASCII lower-casing and substring search.

It then instantiates the pattern for each screen, in `Clients`, `ServiceCalls`,
`HourBanks`, `Invoices` and `Equipment`, together with the rules particular to each
screen:

- usage percentage, the unused progress-colour helper and the low-hours banner;
- the overdue flag, VAT consistency and the send action;
- supplier rating stars, built by a loop in a method;
- the screen state of the equipment page, whose status selector no control ever sets.

The remaining modules cover:

- `Reports`: last-month growth, the up/down growth badge, totals with a maximum, the
  top-four client list and cycling chart colours.
- `Dashboard`: the compact trend label, which takes the sign and the first run of
  digits; the hour-bank bar width; the status labels and colours.
- `Navigation`: the page's `activeView` state, a class whose method replaces it, and
  the view switch with its fallback to the dashboard.
- `Loading`: the spinner sizes, skeleton rows, overlay, loading button and progress
  clamp.

Numbers are exact `real`s, with no IEEE rounding. Calendar dates that the code compares
are integers on one time line, and "today" is a parameter. A division that can be by
zero is either behind a precondition or yields `None`.

## Model

| member | source | states |
|---|---|---|
| `Text.LowerChar` | src/components/ClientsManager.tsx:82-83 | `toLowerCase` on one character: A–Z go to a–z, every other character, Hebrew letters included, is unchanged |
| `Text.Lower` | src/components/ClientsManager.tsx:82-83 | lower-casing keeps the length and lowers each position independently |
| `Text.LowerIdempotent` | src/components/ClientsManager.tsx:82-83 | lower-casing a lowered string changes nothing, so lowering term and field on both sides is consistent |
| `Text.LowerKeepsUncased` | src/components/ClientsManager.tsx:82-83 | a string without ASCII capitals, such as a Hebrew name, is its own lower case |
| `Text.Contains` | src/components/ClientsManager.tsx:82-83 | `includes`: true iff the needle occurs at some position of the haystack |
| `Text.EmptyOccursEverywhere` | src/components/ClientsManager.tsx:82-84 | the empty term is contained in every string |
| `Text.MissingCharNotContained` | src/components/ClientsManager.tsx:82-83 | a needle with a character the haystack lacks does not occur in it |
| `Text.LowerKeepsNonLetterAbsent` | src/components/ClientsManager.tsx:82-83 | lowering never introduces a character that is not an ASCII letter |
| `Text.LowerKeepsOccurrence` | src/components/ClientsManager.tsx:82-83 | an occurrence of the term survives lowering both sides, so a verbatim match is always found |
| `Text.NoOccurrenceWithoutChar` | src/components/ClientsManager.tsx:82-83 | a field lacking a non-letter character of the term never matches it, whatever the case |
| `Views.Selects` | src/components/ClientsManager.tsx:84 | `selected === 'all' ||` the field test: the sentinel accepts every field; any other selector accepts exactly the equal field |
| `Views.Filter` | src/components/ClientsManager.tsx:81-86 | `Array.prototype.filter`: never longer than the input; every record kept passes the predicate, and every record of the input that passes is kept |
| `Views.FilterMultiplicity` | src/components/ClientsManager.tsx:81-86 | each record passing the predicate is kept as many times as it occurs in the input, and a failing one not at all; with `FilterIsSubsequence` this determines the result |
| `Views.FilterIsSubsequence` | src/components/ClientsManager.tsx:81 | the filtered list is an order-preserving subsequence of the full list |
| `Views.SubsequenceOfTail` | src/components/ClientsManager.tsx:81 | dropping the head of the list keeps any subsequence of its tail a subsequence |
| `Views.FilterAppend` | src/components/ClientsManager.tsx:81-86 | each record is judged on its own: filtering a concatenation concatenates the filtered parts |
| `Views.FilterCongruent` | src/components/ClientsManager.tsx:81-86 | two predicates that agree on every record select the same list |
| `Views.FilterKeepsAll` | src/components/ClientsManager.tsx:81-86 | when every record passes, the list is shown unchanged |
| `Views.Count` | src/components/HourBanksManager.tsx:166 | `.filter(p).length`: never more than the list length |
| `Views.CountZeroIff` | src/components/HourBanksManager.tsx:166 | a count is zero iff no record passes, in both directions |
| `Views.CountComplement` | src/components/HourBanksManager.tsx:166 | a `.filter(p).length` count and the count of its negation add up to the list length |
| `Views.Sum` | src/components/ServiceCallsManager.tsx:123 | `reduce` with initial value 0: the empty list sums to 0 and a single record to its own field |
| `Views.SumNonNegative` | src/components/ServiceCallsManager.tsx:123 | a `reduce` sum of non-negative fields is non-negative |
| `Views.SumDifference` | src/components/HourBanksManager.tsx:167-172 | summing a field that is the difference of two others gives the difference of their sums |
| `Views.SumBetween` | src/components/EquipmentManager.tsx:243 | a sum of fields within [lo, hi] lies within the list length times lo and times hi |
| `Views.SumPartition` | src/components/InvoicesManager.tsx:156-159 | the sum over the list splits into the sums over the records a predicate keeps and drops |
| `Views.EmptyStateFor` | src/components/ClientsManager.tsx:237-250 | the empty card appears iff nothing is shown; it says "try other search terms" iff a term is typed, and has the add button iff none is |
| `Views.EmptyCardIffNoneKept` | src/components/ClientsManager.tsx:237 | on a filtered screen the empty card appears iff no record passes the filter |
| `Clients.FilteredClients` | src/components/ClientsManager.tsx:81-86 | a client is shown iff the lowered term occurs in its lowered company name or contact person and the type selector is "all" or its type; order kept, and every copy of a matching record kept |
| `Clients.EmptySearchShowsAll` | src/components/ClientsManager.tsx:82-84 | with no term and type "all" every client is shown, in order |
| `Clients.SearchIgnoresCase` | src/components/ClientsManager.tsx:82-83 | two terms with the same lower case show the same clients |
| `Clients.UnknownTypeShowsNothing` | src/components/ClientsManager.tsx:84 | a type selector outside "all", retainer, hourly and hour_bank shows no client |
| `Clients.EmptyStateIffNoMatch` | src/components/ClientsManager.tsx:237-250 | the clients empty card appears iff no client matches both search and type |
| `Clients.ClientTypeText` | src/components/ClientsManager.tsx:63-70 | the three client types get their Hebrew labels; any other string is echoed |
| `Clients.ClientTypeTextDistinguishes` | src/components/ClientsManager.tsx:63-70 | different client types get different labels, and no label is a raw type name |
| `Clients.MissesWithoutChar` | src/components/ClientsManager.tsx:82-83 | a client whose two names lack a non-letter character of the term is not found |
| `Clients.HitsByCompanyName` | src/components/ClientsManager.tsx:82 | a client whose company name holds the term verbatim is found |
| `Clients.SampleClient1Misses` | src/components/ClientsManager.tsx:26-35 | client 1 does not match "רוזן" |
| `Clients.SampleClient2Hits` | src/components/ClientsManager.tsx:37-47 | client 2, the law firm, matches "רוזן" |
| `Clients.SampleClient3Misses` | src/components/ClientsManager.tsx:48-60 | client 3 does not match "רוזן" |
| `Clients.SampleSearchRozen` | src/components/ClientsManager.tsx:25-61 | searching "רוזן" with type "all" shows exactly client id 2 |
| `ServiceCalls.FilteredCalls` | src/components/ServiceCallsManager.tsx:115-121 | a call is shown iff the term occurs, ignoring case, in its client, description or technician and the status selector is "all" or its status; order kept, and every copy of a matching record kept |
| `ServiceCalls.EmptySearchShowsAll` | src/components/ServiceCallsManager.tsx:116-120 | with no term and status "all" every call is shown, in order |
| `ServiceCalls.EmptyStateIffNoMatch` | src/components/ServiceCallsManager.tsx:328-341 | the calls empty card appears iff no call matches both search and status |
| `ServiceCalls.Statistics` | src/components/ServiceCallsManager.tsx:123-125 | over all calls, independent of the filter: the total is the list length, open + in-progress + closed counts make it up, and non-negative durations give non-negative hours |
| `ServiceCalls.StatusCountsPartition` | src/components/ServiceCallsManager.tsx:124-125 | every call has exactly one of the three statuses, so the three counts add up to the list length |
| `ServiceCalls.StatusText` | src/components/ServiceCallsManager.tsx:81-88 | the three call statuses get Hebrew labels; any other string is echoed |
| `ServiceCalls.BillingTypeText` | src/components/ServiceCallsManager.tsx:99-105 | the two billing types get Hebrew labels; any other string is echoed |
| `ServiceCalls.LabelsDistinguish` | src/components/ServiceCallsManager.tsx:81-105 | distinct statuses and billing types get distinct labels, none equal to a raw name |
| `ServiceCalls.SampleStatistics` | src/components/ServiceCallsManager.tsx:28-79 | on the four sample calls the cards read 4 calls, 8 hours, 1 open and 1 in progress |
| `HourBanks.FilteredHourBanks` | src/components/HourBanksManager.tsx:158-162 | a bank is shown iff the term occurs, ignoring case, in its client name and the status selector is "all" or its status; order kept, and every copy of a matching record kept |
| `HourBanks.EmptyStateIffNoMatch` | src/components/HourBanksManager.tsx:407-420 | the banks empty card appears iff no bank matches both search and status |
| `HourBanks.TotalStatistics` | src/components/HourBanksManager.tsx:164-173 | over all banks: total is the list length, active plus non-active banks make it up, and if every bank is consistent, remaining = total − used for the hours and for the value |
| `HourBanks.WarningBanksAreNotActive` | src/components/HourBanksManager.tsx:166 | a bank in status "warning" is not counted active, so the active count falls below the total |
| `HourBanks.UsagePercentage` | src/components/HourBanksManager.tsx:148-150 | the percentage times the total equals used hours times 100 |
| `HourBanks.UsagePercentageBounds` | src/components/HourBanksManager.tsx:148-150 | for 0 ≤ used ≤ total and total > 0 the percentage lies in [0, 100] |
| `HourBanks.ProgressColorFor` | src/components/HourBanksManager.tsx:152-156 | the colour `getProgressColor` would give: red iff ≥ 80, yellow iff in [60, 80), green iff < 60 |
| `HourBanks.ProgressColorMonotone` | src/components/HourBanksManager.tsx:152-156 | more usage never gives a less alarming colour |
| `HourBanks.ShowsLowHoursWarning` | src/components/HourBanksManager.tsx:393 | the banner never shows for a bank that is not active or has more than 10 hours left |
| `HourBanks.LowHoursWarningIff` | src/components/HourBanksManager.tsx:393 | for a consistent bank the low-hours banner shows iff it is active and within 10 hours of its total |
| `HourBanks.StatusText` | src/components/HourBanksManager.tsx:128-136 | the four bank statuses get Hebrew labels; any other string is echoed |
| `HourBanks.SampleBanksConsistent` | src/components/HourBanksManager.tsx:40-105 | every sample bank satisfies remaining = total − used, so the aggregated figures do too |
| `HourBanks.SampleBank1Usage` | src/components/HourBanksManager.tsx:41-55 | bank 1, 65 of 100 hours used, shows 65 percent used, gets yellow from `getProgressColor`, and shows no banner |
| `HourBanks.SampleBank2NoBanner` | src/components/HourBanksManager.tsx:56-70 | bank 2 has 8 hours left but status "warning", so no banner shows |
| `Invoices.FilteredInvoices` | src/components/InvoicesManager.tsx:146-152 | an invoice is shown iff the term occurs, ignoring case, in its client name, number or description and the status selector is "all" or its status; order kept, and every copy of a matching record kept |
| `Invoices.EmptyStateIffNoMatch` | src/components/InvoicesManager.tsx:430-443 | the invoices empty card appears iff no invoice matches both search and status |
| `Invoices.TotalStatistics` | src/components/InvoicesManager.tsx:154-164 | over all invoices: the four status counts plus the cancelled count make up the total, and paid + pending + overdue + draft + cancelled amounts make up the total amount |
| `Invoices.StatusCountsPartition` | src/components/InvoicesManager.tsx:160-163 | every invoice has exactly one of the five statuses |
| `Invoices.StatusAmountsPartition` | src/components/InvoicesManager.tsx:156-159 | the per-status sums of `totalAmount` add up to the total amount |
| `Invoices.AmountWith` | src/components/InvoicesManager.tsx:157-159 | the sum of `totalAmount` over one status: 0 when no invoice has it, and never negative when no total is |
| `Invoices.AmountWithFirst` | src/components/InvoicesManager.tsx:157-159 | the first invoice adds its total to the sum of its own status only |
| `Invoices.StatisticsBounded` | src/components/InvoicesManager.tsx:156-163 | with non-negative totals, paid + pending + overdue ≤ total amount, and the four counts ≤ the number of invoices |
| `Invoices.IsOverdue` | src/components/InvoicesManager.tsx:170-175 | a paid invoice is never overdue; any other status is overdue iff its due date is before today |
| `Invoices.OverdueFlag` | src/components/InvoicesManager.tsx:170-175 | an invoice is flagged iff unpaid and past due, and a later today never clears the flag |
| `Invoices.StatusText` | src/components/InvoicesManager.tsx:113-122 | the five invoice statuses get Hebrew labels; any other string is echoed |
| `Invoices.StatusTextDistinguishes` | src/components/InvoicesManager.tsx:113-122 | the five statuses get five different labels |
| `Invoices.ShowsSendAction` | src/components/InvoicesManager.tsx:414 | the send button never appears on a sent, paid, overdue or cancelled invoice |
| `Invoices.SendActionsCountDrafts` | src/components/InvoicesManager.tsx:161 | the cards with a send button are exactly as many as the drafts card counts |
| `Invoices.SampleInvoicesVat` | src/components/InvoicesManager.tsx:42-111 | every sample invoice has 17 percent VAT and total = amount + VAT, and only the draft shows the send action |
| `Invoices.SampleOverdueFlags` | src/components/InvoicesManager.tsx:170-175 | after the last sample due date every unpaid sample invoice is flagged, the unsent draft included |
| `Equipment.FilteredEquipment` | src/components/EquipmentManager.tsx:216-223 | an item is shown iff the term occurs, ignoring case, in its name, brand or model and both selectors are "all" or equal to its category and status; order kept, and every copy of a matching record kept |
| `Equipment.FilteredSuppliers` | src/components/EquipmentManager.tsx:225-229 | a supplier is shown iff the term occurs, ignoring case, in its name or contact person; no selector applies; order kept, and every copy of a matching supplier kept |
| `Equipment.StatusAllIgnoresStatus` | src/components/EquipmentManager.tsx:221 | with the status selector at "all" the list depends on search and category alone |
| `Equipment.EquipmentStatsOf` | src/components/EquipmentManager.tsx:231-237 | over all items: available + in use + maintenance + retired make up the total, so the three cards never exceed it; non-negative prices give a non-negative value |
| `Equipment.ItemStatusCountsPartition` | src/components/EquipmentManager.tsx:233-235 | every item has exactly one of the four statuses |
| `Equipment.SupplierStatsOf` | src/components/EquipmentManager.tsx:239-244 | active and inactive suppliers make up the total, orders are non-negative, and the average rating exists iff there is a supplier and times the count gives the rating sum |
| `Equipment.AvgRatingBetween` | src/components/EquipmentManager.tsx:243 | the average rating lies within any range holding every rating |
| `Equipment.QuotientBetween` | src/components/EquipmentManager.tsx:243 | dividing a sum bounded by n·lo and n·hi by a positive n gives a value in [lo, hi] |
| `Equipment.RatingStars` | src/components/EquipmentManager.tsx:204-214 | exactly five stars, star k filled iff k ≤ rating |
| `Equipment.FilledCount` | src/components/EquipmentManager.tsx:208 | the filled-star count never exceeds the number of stars |
| `Equipment.FilledPrefixCount` | src/components/EquipmentManager.tsx:206-208 | a row whose first m stars are filled has m filled stars |
| `Equipment.StarsFor` | src/components/EquipmentManager.tsx:206-208 | the whole part of the rating, kept within 0 to 5 |
| `Equipment.RatingStarsCount` | src/components/EquipmentManager.tsx:204-214 | in any row the method returns, the filled stars come first and there are as many as the whole part of the rating, between 0 and 5 |
| `Equipment.TabEmptyState` | src/components/EquipmentManager.tsx:647-672 | the empty card appears iff the active tab's list is empty, with the usual search-term message and add button |
| `Equipment.Step` | src/components/EquipmentManager.tsx:43-46 | typing, a category button and a tab switch each replace one state field, and none touches the status selector |
| `Equipment.Run` | src/components/EquipmentManager.tsx:43-46 | after a sequence of actions the status selector is unchanged, the term is unchanged unless something was typed, and the last action's typed term is the one kept |
| `Equipment.StatusSelectorStaysAll` | src/components/EquipmentManager.tsx:45 | after any sequence of user actions the status selector is still "all" and the category is one of the button categories |
| `Equipment.RunKeeps` | src/components/EquipmentManager.tsx:360-391 | user actions preserve status "all" and a known category |
| `Equipment.ShownItems` | src/components/EquipmentManager.tsx:216-223 | the equipment list of a screen state keeps list order and holds only items matching the state's term, category and status |
| `Equipment.ShownSuppliers` | src/components/EquipmentManager.tsx:225-229 | the supplier list of a screen state keeps list order and holds only suppliers matching the state's term |
| `Equipment.SearchTermShared` | src/components/EquipmentManager.tsx:353-357 | a term typed in either tab filters both lists, and switching tab leaves both lists unchanged |
| `Equipment.CategoryLeavesSuppliers` | src/components/EquipmentManager.tsx:360-391 | a category button changes the equipment list only |
| `Equipment.StatusText` | src/components/EquipmentManager.tsx:176-184 | the four item statuses get Hebrew labels; any other string is echoed |
| `Equipment.StatusTextDistinguishes` | src/components/EquipmentManager.tsx:176-184 | the four statuses get four different labels |
| `Equipment.SampleEquipmentStats` | src/components/EquipmentManager.tsx:48-115 | on the sample items: 4 items, 1 available, 2 in use, 1 in maintenance, value 8250 |
| `Equipment.SampleSupplierStats` | src/components/EquipmentManager.tsx:117-174 | on the sample suppliers: 4 suppliers, 3 active, 39 orders, average rating 4.325 |
| `Equipment.SampleStars` | src/components/EquipmentManager.tsx:127 | a 4.8 rating fills four stars and a 3.8 rating three |
| `Reports.LastTwo` | src/components/ReportsManager.tsx:68-69 | the current and previous months are the last two rows, which need at least two rows |
| `Reports.Growth` | src/components/ReportsManager.tsx:70-71 | growth times the previous value equals the change times 100 |
| `Reports.RevenueGrowth` | src/components/ReportsManager.tsx:68-70 | the growth times the next-to-last month's revenue equals the change to the last month's revenue times 100 |
| `Reports.HoursGrowth` | src/components/ReportsManager.tsx:68-71 | the growth times the next-to-last month's hours equals the change to the last month's hours times 100 |
| `Reports.GrowthSign` | src/components/ReportsManager.tsx:70-71 | against a positive base, growth is positive iff the value rose and zero iff it stayed |
| `Reports.FormatGrowth` | src/components/ReportsManager.tsx:86-93 | the badge points up iff growth > 0, so zero shows as down, and it shows the absolute value |
| `Reports.FormatGrowthSymmetric` | src/components/ReportsManager.tsx:86-93 | a growth and its opposite show the same number, and at most one points up |
| `Reports.RevenueBadgeUpIff` | src/components/ReportsManager.tsx:68-70 | the revenue badge points up iff the last month's revenue beat the previous month's |
| `Reports.Max` | src/components/ReportsManager.tsx:76 | `Math.max` over a non-empty list is at least every element and equal to one of them |
| `Reports.ClientsColumn` | src/components/ReportsManager.tsx:76 | the clients column has one entry per row, holding that row's clients |
| `Reports.TotalStatistics` | src/components/ReportsManager.tsx:73-80 | revenue, hours and calls are sums over the rows; the clients figure is the largest monthly count, attained by some row; the hourly rate times hours gives revenue, and the monthly average times the row count gives calls |
| `Reports.MaxClientsAtMostSum` | src/components/ReportsManager.tsx:76 | with non-negative counts the clients figure never exceeds the sum of the monthly counts |
| `Reports.TopClients` | src/components/ReportsManager.tsx:323-327 | the first min(4, n) clients in their given order, ranked from 1 |
| `Reports.ClientsOfRanking` | src/components/ReportsManager.tsx:323 | the clients of a ranking, in rank order |
| `Reports.TopClientsIsPrefix` | src/components/ReportsManager.tsx:323-327 | the list shown is a prefix of the data, whole when it has four entries or fewer, with strictly increasing ranks |
| `Reports.ColorFor` | src/components/ReportsManager.tsx:66 | every chart entry's colour is one of the five palette colours |
| `Reports.ColorCycle` | src/components/ReportsManager.tsx:277 | colours repeat every five entries, and five consecutive entries get five different colours |
| `Reports.SampleGrowthDown` | src/components/ReportsManager.tsx:33-40 | June fell from May on revenue and on hours, so both badges point down |
| `Reports.SampleClientsIsMax` | src/components/ReportsManager.tsx:33-40 | on the sample rows the clients card reads 22, the maximum, while the monthly counts add up to 112 |
| `Reports.SampleClientsSum` | src/components/ReportsManager.tsx:33-40 | the sample monthly client counts add up to 112 |
| `Reports.SampleTopClients` | src/components/ReportsManager.tsx:42-48 | the top list holds four clients, the fourth ranked 4, and leaves out "others" |
| `Dashboard.LeadingDigits` | src/components/Dashboard.tsx:30 | the longest all-digit prefix: digits only, a prefix, followed by a non-digit or the end |
| `Dashboard.FirstDigitRun` | src/components/Dashboard.tsx:30 | `match(/\d+/)?.[0]`: nothing iff the text has no digit, otherwise the first maximal run of digits |
| `Dashboard.FirstRunUnique` | src/components/Dashboard.tsx:30 | a string has only one first maximal run of digits |
| `Dashboard.FirstDigitRunIs` | src/components/Dashboard.tsx:30 | whatever run is first is the one the match returns |
| `Dashboard.TrendLabel` | src/components/Dashboard.tsx:30 | the sign from `trendUp`, then the first digit run of the trend (empty iff it has no digit), then `%` |
| `Dashboard.TrendLine` | src/components/Dashboard.tsx:26-31 | the trend line renders iff a non-empty trend is given; a missing `trendUp` counts as false |
| `Dashboard.SampleTrendUp` | src/components/Dashboard.tsx:155-160 | "+12% מהחודש הקודם" trending up shows "+12%" |
| `Dashboard.SampleTrendDown` | src/components/Dashboard.tsx:162-168 | "-8% מהחודש הקודם" trending down shows "-8%" |
| `Dashboard.SampleTrendNoDigits` | src/components/Dashboard.tsx:30 | a trend without digits shows a bare sign and `%` |
| `Dashboard.BarWidth` | src/components/Dashboard.tsx:250 | the bar width times the total equals the remaining hours times 100 |
| `Dashboard.BarWidthComplementsUsage` | src/components/Dashboard.tsx:250 | the bar width and the hour-bank usage percentage add up to 100, and the bar lies in [0, 100] when remaining ≤ total |
| `Dashboard.SharesAddUp` | src/components/Dashboard.tsx:250 | shares of a positive total of two parts that make it up add up to 100 |
| `Dashboard.StatusText` | src/components/Dashboard.tsx:119-129 | the six call and bank statuses get Hebrew labels; any other string is echoed |
| `Dashboard.StatusColor` | src/components/Dashboard.tsx:107-117 | a colour class per known status, and the muted class iff the status is unknown |
| `Dashboard.StatusTextAgreesWithScreens` | src/components/Dashboard.tsx:119-129 | call labels agree with the service-calls screen, the shared bank labels with the hour-banks screen, and the six labels are distinct |
| `Dashboard.SampleBarWidth` | src/components/Dashboard.tsx:84-90 | a bank with 8.5 of 20 hours left draws a 42.5 percent bar |
| `Navigation.RenderView` | src/pages/Index.tsx:10-31 | dashboard, clients and service-calls mount their screens, the other five menu ids show a notice, and any other id falls back to the dashboard |
| `Navigation.MenuEntriesDistinct` | src/pages/Index.tsx:11-27 | the eight menu entries render eight different things |
| `Navigation.Shell.constructor` | src/pages/Index.tsx:8 | the active view starts as "dashboard", showing the dashboard |
| `Navigation.Shell.Current` | src/pages/Index.tsx:10-31 | the page shows a placeholder notice iff the active view is one of the five unbuilt entries, and the dashboard iff it is "dashboard" or off the menu |
| `Navigation.Shell.OnViewChange` | src/pages/Index.tsx:34 | the given id replaces the active view, whatever it was |
| `Navigation.Highlighted` | src/components/Sidebar.tsx:64 | the sidebar highlights an entry iff its id is the active view |
| `Navigation.AtMostOneHighlighted` | src/components/Sidebar.tsx:32-39 | at most one menu entry is highlighted |
| `Loading.SpinnerClass` | src/components/ui/loading.tsx:8-13 | small, medium and large map to the w-4, w-6 and w-8 classes; no size means medium |
| `Loading.SpinnerSizesOrdered` | src/components/ui/loading.tsx:9-13 | each class sets width and height to the size's side (4, 6 or 8), so larger sizes draw larger spinners, and each size has its own class |
| `Loading.SkeletonKeys` | src/components/ui/loading.tsx:51-55 | one row per unit of `count`, none for a negative count, one without a count, each keyed by its index |
| `Loading.SkeletonKeysDistinct` | src/components/ui/loading.tsx:55 | sibling rows have distinct keys |
| `Loading.LoadingOverlay` | src/components/ui/loading.tsx:99-113 | the children are unchanged when not loading; when loading they are covered, with a large spinner and the caption "טוען..." |
| `Loading.LoadingButton` | src/components/ui/loading.tsx:115-143 | disabled follows `isLoading` unless the caller's props override it; the small spinner and the faded label appear iff loading |
| `Loading.ButtonDisabledWhileLoading` | src/components/ui/loading.tsx:132-133 | without an override a loading button is disabled; an override to false leaves it pressable while it spins |
| `Loading.Clamp` | src/components/ui/loading.tsx:160 | the width lies in [0, 100], is the progress itself inside that range, 0 below it and 100 above |
| `Loading.ClampIdempotentMonotone` | src/components/ui/loading.tsx:160 | clamping twice is clamping once, and more progress never draws a shorter bar |

## Left out

- src/components/SettingsManager.tsx is not part of this model. It is form bindings and a
  save simulated with a timer.
- src/components/Layout.tsx is not part of this model, and neither is most of
  src/components/Sidebar.tsx. They are presentational. Only the sidebar's highlighting
  rule is modelled (`Navigation.Highlighted`).
- src/components/MobileOptimizations.tsx is not part of this model. It holds only a CSS
  string.
- Markup, class strings, icons, animations and the Recharts charts are left out. So are
  the badge-class maps of the manager screens. The one class map modelled is the
  dashboard's `getStatusColor`.
- Sample lists that feed only charts are left out: `hourBankUsages`,
  `serviceCallStatusData` and `monthlyGrowthData`.
- `selectedPeriod` and `selectedReportType` of the reports screen feed no computation.
  The `Reports` functions therefore take only the rows, so every statistic is
  independent of the period selector by construction.
- `Invoices.IsOverdue` does not model `new Date(...)` parsing or the clock. Due dates are
  integers, written yyyymmdd in the sample data, and "today" is a parameter.
- `Invoices.IsOverdue` compares days where the program compares instants. `new Date` on
  a due date gives midnight UTC of that day, and `new Date()` is the current moment. The
  program therefore flags an unpaid invoice already during its due day. With day-numbered
  dates the model flags it only from the next day. `Invoices.SampleOverdueFlags` inherits
  this one-day shift.
- `HourBanks.ProgressColorFor` models `getProgressColor`, which the hour-banks screen
  defines but never calls. The progress bar receives only its value, so no colour is
  shown on screen.
- `Text.Lower` is ASCII-only lower-casing, not full Unicode `toLowerCase`. Hebrew has no
  case, so the sample data is unaffected.
- `Dashboard.FirstDigitRun` replaces the regular-expression engine with an explicit
  search for the first run of ASCII digits, which is what `\d` matches in JavaScript.
- Number formatting (`toLocaleString`, `toFixed`) is left out, and so are IEEE rounding,
  NaN and Infinity.
- `HourBanks.UsagePercentage` requires a non-zero total, where the source would compute
  NaN or Infinity. `Reports.Growth` and `Dashboard.BarWidth` do the same.
- `Reports.TotalStatistics` gives `None` for the client figure of an empty list, where
  `Math.max()` yields -Infinity. It also gives `None` for an average whose divisor is
  zero, where the source yields NaN or Infinity.
- `Equipment.SupplierStatsOf` gives `None` for the average rating of an empty list,
  where the source shows NaN.
- `Loading.SkeletonKeys` takes an integer count. `Array.from` would truncate a fractional
  length, and the model does not cover that case.
- `Equipment.TabEmptyState` models the active tab as one of its two values, the only
  ones the tab control emits.
- React's rendering, hooks and re-render scheduling are left out. The equipment screen's
  state is a value replaced on each user action (`Equipment.Step`), and the page's
  `activeView` is a field of `Navigation.Shell`.
- The model follows the code throughout.
