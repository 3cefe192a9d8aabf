/** The invoices screen: a fixed list of invoices, a search box over client name,
    invoice number and description, a status selector, statistics over all
    invoices, an overdue flag and a send action for drafts. */
module Invoices {
  import opened Text
  import opened Views

  datatype InvoiceStatus = Draft | Sent | Paid | Overdue | Cancelled

  /** The string the source stores in `status`. */
  function StatusName(s: InvoiceStatus): string
  {
    match s
    case Draft => "draft"
    case Sent => "sent"
    case Paid => "paid"
    case Overdue => "overdue"
    case Cancelled => "cancelled"
  }

  /** Dates are instants on one time line, compared as integers. */
  type Instant = int

  datatype Invoice = Invoice(
    id: string,
    invoiceNumber: string,
    clientId: string,
    clientName: string,
    issueDate: Instant,
    dueDate: Instant,
    amount: real,
    vatAmount: real,
    totalAmount: real,
    status: InvoiceStatus,
    paymentMethod: Option<string>,
    paidDate: Option<Instant>,
    description: string,
    serviceCallIds: seq<string>,
    hoursWorked: real,
    hourlyRate: real,
    notes: Option<string>)

  predicate MatchesSearch(inv: Invoice, searchTerm: string)
  {
    var t := Lower(searchTerm);
    Contains(Lower(inv.clientName), t) || Contains(Lower(inv.invoiceNumber), t) || Contains(Lower(inv.description), t)
  }

  predicate MatchesStatus(inv: Invoice, selectedStatus: string)
  {
    Selects(selectedStatus, StatusName(inv.status))
  }

  function Keep(searchTerm: string, selectedStatus: string): Invoice -> bool
  {
    inv => MatchesSearch(inv, searchTerm) && MatchesStatus(inv, selectedStatus)
  }

  /** `filteredInvoices`: the invoices that match both the search and the status, in list order. */
  function FilteredInvoices(invoices: seq<Invoice>, searchTerm: string, selectedStatus: string): (r: seq<Invoice>)
    ensures IsSubsequence(r, invoices)
    ensures forall i :: 0 <= i < |r| ==> MatchesSearch(r[i], searchTerm) && MatchesStatus(r[i], selectedStatus)
    ensures forall i :: 0 <= i < |invoices| && MatchesSearch(invoices[i], searchTerm) && MatchesStatus(invoices[i], selectedStatus)
              ==> invoices[i] in r
    ensures forall x :: multiset(r)[x] == if MatchesSearch(x, searchTerm) && MatchesStatus(x, selectedStatus) then multiset(invoices)[x] else 0
  {
    FilterIsSubsequence(invoices, Keep(searchTerm, selectedStatus));
    FilterMultiplicity(invoices, Keep(searchTerm, selectedStatus));
    Filter(invoices, Keep(searchTerm, selectedStatus))
  }

  /** The empty-state card appears iff no invoice passes the filter. */
  lemma EmptyStateIffNoMatch(invoices: seq<Invoice>, searchTerm: string, selectedStatus: string)
    ensures EmptyStateFor(|FilteredInvoices(invoices, searchTerm, selectedStatus)|, searchTerm).EmptyCard?
            <==> forall i :: 0 <= i < |invoices| ==> !(MatchesSearch(invoices[i], searchTerm) && MatchesStatus(invoices[i], selectedStatus))
  {
    EmptyCardIffNoneKept(invoices, Keep(searchTerm, selectedStatus), searchTerm);
  }

  function HasStatus(s: InvoiceStatus): Invoice -> bool
  {
    (inv: Invoice) => inv.status == s
  }

  function TotalAmountOf(inv: Invoice): real
  {
    inv.totalAmount
  }

  /** The amount billed to invoices of one status: nothing when no invoice has it, and
      never negative when no total is. */
  function AmountWith(invoices: seq<Invoice>, s: InvoiceStatus): (a: real)
    ensures (forall i :: 0 <= i < |invoices| ==> invoices[i].status != s) ==> a == 0.0
    ensures (forall i :: 0 <= i < |invoices| ==> invoices[i].totalAmount >= 0.0) ==> a >= 0.0
  {
    var shown := Filter(invoices, HasStatus(s));
    assert shown != [] ==> shown[0] in invoices;
    if forall i :: 0 <= i < |invoices| ==> invoices[i].totalAmount >= 0.0 then
      SumNonNegative(shown, TotalAmountOf);
      Sum(shown, TotalAmountOf)
    else
      Sum(shown, TotalAmountOf)
  }

  datatype Statistics = Statistics(
    totalInvoices: nat,
    totalAmount: real,
    paidAmount: real,
    pendingAmount: real,
    overdueAmount: real,
    draftCount: nat,
    sentCount: nat,
    paidCount: nat,
    overdueCount: nat)

  /** `totalStatistics`: over every invoice, whatever the search and status. Pending means sent.
      Cancelled invoices enter the totals but none of the per-status figures. */
  function TotalStatistics(invoices: seq<Invoice>): (s: Statistics)
    ensures s.totalInvoices == |invoices|
    ensures s.draftCount + s.sentCount + s.paidCount + s.overdueCount + Count(invoices, HasStatus(Cancelled)) == s.totalInvoices
    ensures s.paidAmount + s.pendingAmount + s.overdueAmount + AmountWith(invoices, Draft) + AmountWith(invoices, Cancelled)
            == s.totalAmount
  {
    StatusCountsPartition(invoices);
    StatusAmountsPartition(invoices);
    Statistics(|invoices|, Sum(invoices, TotalAmountOf),
               AmountWith(invoices, Paid), AmountWith(invoices, Sent), AmountWith(invoices, Overdue),
               Count(invoices, HasStatus(Draft)), Count(invoices, HasStatus(Sent)),
               Count(invoices, HasStatus(Paid)), Count(invoices, HasStatus(Overdue)))
  }

  /** Every invoice has exactly one of the five statuses. */
  lemma {:induction false} StatusCountsPartition(invoices: seq<Invoice>)
    ensures Count(invoices, HasStatus(Draft)) + Count(invoices, HasStatus(Sent)) + Count(invoices, HasStatus(Paid))
            + Count(invoices, HasStatus(Overdue)) + Count(invoices, HasStatus(Cancelled)) == |invoices|
  {
    if invoices != [] {
      StatusCountsPartition(invoices[1..]);
    }
  }

  /** The totals of the five statuses add up to the total of all invoices. */
  lemma {:induction false} StatusAmountsPartition(invoices: seq<Invoice>)
    ensures AmountWith(invoices, Paid) + AmountWith(invoices, Sent) + AmountWith(invoices, Overdue)
            + AmountWith(invoices, Draft) + AmountWith(invoices, Cancelled) == Sum(invoices, TotalAmountOf)
  {
    if invoices != [] {
      StatusAmountsPartition(invoices[1..]);
      AmountWithFirst(invoices, Paid);
      AmountWithFirst(invoices, Sent);
      AmountWithFirst(invoices, Overdue);
      AmountWithFirst(invoices, Draft);
      AmountWithFirst(invoices, Cancelled);
    }
  }

  /** The first invoice adds its total to the figure of its own status only. */
  lemma AmountWithFirst(invoices: seq<Invoice>, s: InvoiceStatus)
    requires invoices != []
    ensures AmountWith(invoices, s)
            == (if invoices[0].status == s then invoices[0].totalAmount else 0.0) + AmountWith(invoices[1..], s)
  {
    var rest := Filter(invoices[1..], HasStatus(s));
    if invoices[0].status == s {
      assert Filter(invoices, HasStatus(s)) == [invoices[0]] + rest;
      assert ([invoices[0]] + rest)[1..] == rest;
    }
  }

  /** With no negative totals, paid, pending and overdue together never exceed the total
      amount, and the four status counts never exceed the number of invoices. */
  lemma StatisticsBounded(invoices: seq<Invoice>)
    requires forall i :: 0 <= i < |invoices| ==> invoices[i].totalAmount >= 0.0
    ensures var s := TotalStatistics(invoices);
            s.paidAmount + s.pendingAmount + s.overdueAmount <= s.totalAmount
            && s.draftCount + s.sentCount + s.paidCount + s.overdueCount <= s.totalInvoices
  {
    SumNonNegative(Filter(invoices, HasStatus(Draft)), TotalAmountOf);
    SumNonNegative(Filter(invoices, HasStatus(Cancelled)), TotalAmountOf);
  }

  /** `isOverdue`: a paid invoice is never overdue; any other, cancelled and draft
      included, is overdue once its due date lies before `today`. */
  function IsOverdue(dueDate: Instant, status: string, today: Instant): (r: bool)
    ensures status == "paid" ==> !r
    ensures status != "paid" ==> (r <==> dueDate < today)
  {
    if status == "paid" then false else dueDate < today
  }

  /** An invoice of the list is flagged iff it is unpaid and past due; moving `today`
      later never clears the flag. */
  lemma OverdueFlag(inv: Invoice, today: Instant, later: Instant)
    requires today <= later
    ensures IsOverdue(inv.dueDate, StatusName(inv.status), today) <==> inv.status != Paid && inv.dueDate < today
    ensures IsOverdue(inv.dueDate, StatusName(inv.status), today) ==> IsOverdue(inv.dueDate, StatusName(inv.status), later)
  {
  }

  /** The send button of an invoice card: shown on drafts only, so never on an invoice
      that is already sent, paid, overdue or cancelled. */
  predicate ShowsSendAction(inv: Invoice): (b: bool)
    ensures b ==> inv.status != Sent && inv.status != Paid && inv.status != Overdue && inv.status != Cancelled
  {
    inv.status == Draft
  }

  /** The cards carrying a send button are exactly as many as the drafts card counts. */
  lemma SendActionsCountDrafts(invoices: seq<Invoice>)
    ensures Count(invoices, ShowsSendAction) == TotalStatistics(invoices).draftCount
  {
    FilterCongruent(invoices, ShowsSendAction, HasStatus(Draft));
  }

  /** `getStatusText`: a Hebrew label for each status; any other value is shown as is. */
  function StatusText(status: string): (r: string)
    ensures status == "draft" ==> r == "טיוטה"
    ensures status == "sent" ==> r == "נשלח"
    ensures status == "paid" ==> r == "שולם"
    ensures status == "overdue" ==> r == "בפיגור"
    ensures status == "cancelled" ==> r == "מבוטל"
    ensures status != "draft" && status != "sent" && status != "paid" && status != "overdue" && status != "cancelled"
            ==> r == status
  {
    match status
    case "draft" => "טיוטה"
    case "sent" => "נשלח"
    case "paid" => "שולם"
    case "overdue" => "בפיגור"
    case "cancelled" => "מבוטל"
    case _ => status
  }

  /** The five statuses get five different labels. */
  lemma StatusTextDistinguishes(s1: InvoiceStatus, s2: InvoiceStatus)
    ensures StatusText(StatusName(s1)) == StatusText(StatusName(s2)) <==> s1 == s2
  {
  }

  /** Israeli VAT at 17 percent, and the total it yields. */
  predicate VatConsistent(inv: Invoice)
  {
    inv.vatAmount == inv.amount * 17.0 / 100.0 && inv.totalAmount == inv.amount + inv.vatAmount
  }

  /** Dates written yyyymmdd keep their calendar order. */
  const Invoice1: Invoice :=
    Invoice("1", "INV-2024-001", "1", "חברת טק סולושנס בע״מ", 20240115, 20240215, 3500.0, 595.0, 4095.0, Paid,
            Some("העברה בנקאית"), Some(20240120), "שירותי תמיכה טכנית - ינואר 2024", ["SC001", "SC002"],
            10.0, 350.0, Some("תשלום התקבל בזמן"))
  const Invoice2: Invoice :=
    Invoice("2", "INV-2024-002", "2", "משרד עורכי דין רוזן ושות׳", 20240120, 20240220, 2800.0, 476.0, 3276.0, Sent,
            None, None, "שירותי תמיכה מבנק שעות", ["SC003", "SC004"], 8.0, 350.0, Some("נשלח ללקוח במייל"))
  const Invoice3: Invoice :=
    Invoice("3", "INV-2024-003", "3", "קליניקת השיניים ד״ר לוי", 20240110, 20240210, 1800.0, 306.0, 2106.0, Overdue,
            None, None, "התקנת מערכת גיבוי", ["SC005"], 6.0, 300.0, None)
  const Invoice4: Invoice :=
    Invoice("4", "INV-2024-004", "4", "חברת פיננסים בע״מ", 20240125, 20240225, 4800.0, 816.0, 5616.0, Draft,
            None, None, "שירותי תמיכה וייעוץ", ["SC006", "SC007"], 12.0, 400.0, None)

  /** The four invoices the screen is built with. */
  const SampleInvoices: seq<Invoice> := [Invoice1, Invoice2, Invoice3, Invoice4]

  /** Every sample invoice carries 17 percent VAT and a total of amount plus VAT; only the
      draft shows the send action. */
  lemma SampleInvoicesVat()
    ensures forall i :: 0 <= i < |SampleInvoices| ==> VatConsistent(SampleInvoices[i])
    ensures forall i :: 0 <= i < |SampleInvoices| ==> (ShowsSendAction(SampleInvoices[i]) <==> i == 3)
  {
  }

  /** Once the last due date has passed, every sample invoice but the paid one is
      flagged, the unsent draft included. */
  lemma SampleOverdueFlags(today: Instant)
    requires today > 20240225
    ensures forall i :: 0 <= i < |SampleInvoices| ==>
              (IsOverdue(SampleInvoices[i].dueDate, StatusName(SampleInvoices[i].status), today) <==> i != 0)
    ensures IsOverdue(Invoice4.dueDate, StatusName(Invoice4.status), today) && Invoice4.status == Draft
  {
  }
}
