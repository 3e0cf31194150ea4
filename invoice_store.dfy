/**
 * The invoice store: one state record (the invoice list, the selection, the
 * request flags and two UI flags), five remote actions, the UI setters and
 * the two derived selectors. Each remote action is a method that is handed
 * the outcome of its remote call; create and update are also handed the
 * outcome of the refetch they trigger.
 */
module InvoiceStore {
  import opened Wrappers
  import opened Database
  import opened JsString
  import JsArray

  // ---------------------------------------------------------------------------
  // Deleting by id

  /** The list a confirmed delete of `id` leaves: every other entry, in order. */
  function WithoutId(invoices: seq<Invoice>, id: string): (r: seq<Invoice>)
    ensures forall i :: 0 <= i < |r| ==> r[i].id != id && r[i] in invoices
    ensures forall i :: 0 <= i < |invoices| && invoices[i].id != id ==> invoices[i] in r
    ensures forall x :: multiset(r)[x] == if x.id != id then multiset(invoices)[x] else 0
  {
    forall x {
      JsArray.FilterMultiset(invoices, (inv: Invoice) => inv.id != id, x);
    }
    JsArray.Filter(invoices, (inv: Invoice) => inv.id != id)
  }

  /**
   * Delete locality: the remaining entries keep their order, and exactly as
   * many are gone as carried the id; an absent id changes nothing.
   */
  lemma WithoutIdRemovesExactly(invoices: seq<Invoice>, id: string)
    ensures JsArray.IsSubsequence(WithoutId(invoices, id), invoices)
    ensures |WithoutId(invoices, id)| == |invoices| - |JsArray.Filter(invoices, (inv: Invoice) => inv.id == id)|
    ensures (forall i :: 0 <= i < |invoices| ==> invoices[i].id != id) ==> WithoutId(invoices, id) == invoices
  {
    JsArray.FilterIsSubsequence(invoices, (inv: Invoice) => inv.id != id);
    JsArray.FilterPartition(invoices, (inv: Invoice) => inv.id == id, (inv: Invoice) => inv.id != id);
    if forall i :: 0 <= i < |invoices| ==> invoices[i].id != id {
      JsArray.FilterKeepsAll(invoices, (inv: Invoice) => inv.id != id);
    }
  }

  // ---------------------------------------------------------------------------
  // useFilteredInvoices

  /** `filterStatus`: `'all'` or one status. */
  datatype StatusFilter = All | Only(status: Status)

  /** `query` (already lower-cased) occurs in the number, or in the joined client's name or e-mail. */
  predicate MatchesQuery(inv: Invoice, query: string) {
    || Includes(ToLowerCase(inv.invoiceNumber), query)
    || (inv.client.Some? && Includes(ToLowerCase(inv.client.value.name), query))
    || (inv.client.Some? && Includes(ToLowerCase(inv.client.value.email), query))
  }

  /** Whether the selector keeps `inv`. */
  predicate Selected(inv: Invoice, filterStatus: StatusFilter, searchQuery: string) {
    && (filterStatus.All? || inv.status == filterStatus.status)
    && (searchQuery == "" || MatchesQuery(inv, ToLowerCase(searchQuery)))
  }

  function FilterByStatus(invoices: seq<Invoice>, filterStatus: StatusFilter): (r: seq<Invoice>) {
    match filterStatus
    case All => invoices
    case Only(s) => JsArray.Filter(invoices, (inv: Invoice) => inv.status == s)
  }

  function FilterByQuery(invoices: seq<Invoice>, searchQuery: string): (r: seq<Invoice>) {
    if searchQuery == "" then invoices
    else
      var query := ToLowerCase(searchQuery);
      JsArray.Filter(invoices, (inv: Invoice) => MatchesQuery(inv, query))
  }

  /** `useFilteredInvoices()` over the list and the two filter values. */
  function FilteredInvoices(invoices: seq<Invoice>, filterStatus: StatusFilter, searchQuery: string): (r: seq<Invoice>)
    ensures JsArray.IsSubsequence(r, invoices)
    ensures forall i :: 0 <= i < |r| ==> Selected(r[i], filterStatus, searchQuery)
    ensures forall i :: 0 <= i < |invoices| && Selected(invoices[i], filterStatus, searchQuery) ==> invoices[i] in r
    ensures filterStatus == All && searchQuery == "" ==> r == invoices
    ensures forall x :: multiset(r)[x] == if Selected(x, filterStatus, searchQuery) then multiset(invoices)[x] else 0
  {
    var byStatus := FilterByStatus(invoices, filterStatus);
    var r := FilterByQuery(byStatus, searchQuery);
    forall x
      ensures multiset(r)[x] == if Selected(x, filterStatus, searchQuery) then multiset(invoices)[x] else 0
    {
      if filterStatus.Only? {
        JsArray.FilterMultiset(invoices, (inv: Invoice) => inv.status == filterStatus.status, x);
      }
      if searchQuery != "" {
        JsArray.FilterMultiset(byStatus, (inv: Invoice) => MatchesQuery(inv, ToLowerCase(searchQuery)), x);
      }
    }
    assert JsArray.IsSubsequence(byStatus, invoices) by {
      if filterStatus.Only? {
        JsArray.FilterIsSubsequence(invoices, (inv: Invoice) => inv.status == filterStatus.status);
      } else {
        JsArray.FilterKeepsAll(invoices, (inv: Invoice) => true);
        JsArray.FilterIsSubsequence(invoices, (inv: Invoice) => true);
      }
    }
    assert JsArray.IsSubsequence(r, byStatus) by {
      if searchQuery != "" {
        JsArray.FilterIsSubsequence(byStatus, (inv: Invoice) => MatchesQuery(inv, ToLowerCase(searchQuery)));
      } else {
        JsArray.FilterKeepsAll(byStatus, (inv: Invoice) => true);
        JsArray.FilterIsSubsequence(byStatus, (inv: Invoice) => true);
      }
    }
    JsArray.SubsequenceTransitive(r, byStatus, invoices);
    r
  }

  /** Filtering an already filtered list with the same values changes nothing. */
  lemma FilteredInvoicesIdempotent(invoices: seq<Invoice>, filterStatus: StatusFilter, searchQuery: string)
    ensures var once := FilteredInvoices(invoices, filterStatus, searchQuery);
      FilteredInvoices(once, filterStatus, searchQuery) == once
  {
    var once := FilteredInvoices(invoices, filterStatus, searchQuery);
    if filterStatus.Only? {
      JsArray.FilterKeepsAll(once, (inv: Invoice) => inv.status == filterStatus.status);
    }
    if searchQuery != "" {
      JsArray.FilterKeepsAll(once, (inv: Invoice) => MatchesQuery(inv, ToLowerCase(searchQuery)));
    }
  }

  // ---------------------------------------------------------------------------
  // useDashboardStats

  datatype DashboardStats = DashboardStats(totalReceived: int, pending: int, drafts: int, totalInvoices: nat)

  /** `.reduce((sum, inv) => sum + inv.total, 0)` */
  function SumTotals(invoices: seq<Invoice>): (sum: int) {
    if invoices == [] then 0 else invoices[0].total + SumTotals(invoices[1..])
  }

  /** Reference definition: the sum of the totals of the invoices in one status. */
  function StatusTotal(invoices: seq<Invoice>, status: Status): (sum: int) {
    if invoices == [] then 0
    else (if invoices[0].status == status then invoices[0].total else 0) + StatusTotal(invoices[1..], status)
  }

  predicate IsPaid(inv: Invoice) { inv.status == Paid }

  predicate IsPending(inv: Invoice) { inv.status == Sent || inv.status == Overdue }

  predicate IsDraft(inv: Invoice) { inv.status == Draft }

  /** `useDashboardStats()` over the list. */
  function DashboardStatsOf(invoices: seq<Invoice>): (st: DashboardStats)
    ensures st.totalInvoices == |invoices|
  {
    DashboardStats(
      SumTotals(JsArray.Filter(invoices, IsPaid)),
      SumTotals(JsArray.Filter(invoices, IsPending)),
      SumTotals(JsArray.Filter(invoices, IsDraft)),
      |invoices|)
  }

  /** One step of a filtered sum: the head counts when it is kept. */
  lemma SumFilteredStep(invoices: seq<Invoice>, p: Invoice -> bool)
    requires invoices != []
    ensures SumTotals(JsArray.Filter(invoices, p))
         == (if p(invoices[0]) then invoices[0].total else 0) + SumTotals(JsArray.Filter(invoices[1..], p))
  {
    var rest := JsArray.Filter(invoices[1..], p);
    if p(invoices[0]) {
      assert ([invoices[0]] + rest)[1..] == rest;
    } else {
      assert [] + rest == rest;
    }
  }

  /** Received is the `paid` total, pending the `sent` plus `overdue` total, drafts the `draft` total. */
  lemma {:induction false} DashboardStatsByStatus(invoices: seq<Invoice>)
    ensures var st := DashboardStatsOf(invoices);
      && st.totalReceived == StatusTotal(invoices, Paid)
      && st.pending == StatusTotal(invoices, Sent) + StatusTotal(invoices, Overdue)
      && st.drafts == StatusTotal(invoices, Draft)
  {
    if invoices != [] {
      DashboardStatsByStatus(invoices[1..]);
      SumFilteredStep(invoices, IsPaid);
      SumFilteredStep(invoices, IsPending);
      SumFilteredStep(invoices, IsDraft);
    }
  }

  /** A `cancelled` invoice adds to no sum; it only counts in `totalInvoices`. */
  lemma CancelledCountsNowhere(invoices: seq<Invoice>, cancelled: Invoice)
    requires cancelled.status == Cancelled
    ensures DashboardStatsOf(invoices + [cancelled])
         == DashboardStatsOf(invoices).(totalInvoices := |invoices| + 1)
  {
    JsArray.FilterAppend(invoices, [cancelled], IsPaid);
    JsArray.FilterAppend(invoices, [cancelled], IsPending);
    JsArray.FilterAppend(invoices, [cancelled], IsDraft);
    assert JsArray.Filter(invoices, IsPaid) + [] == JsArray.Filter(invoices, IsPaid);
    assert JsArray.Filter(invoices, IsPending) + [] == JsArray.Filter(invoices, IsPending);
    assert JsArray.Filter(invoices, IsDraft) + [] == JsArray.Filter(invoices, IsDraft);
  }

  // ---------------------------------------------------------------------------
  // The store

  class Store {
    var invoices: seq<Invoice>
    var selectedInvoice: Option<Invoice>
    var isLoading: bool
    var error: Option<string>
    var isDrawerOpen: bool
    var isModalOpen: bool

    /** The initial state. */
    constructor ()
      ensures invoices == [] && selectedInvoice == None
      ensures !isLoading && error == None
      ensures !isDrawerOpen && !isModalOpen
    {
      invoices := [];
      selectedInvoice := None;
      isLoading := false;
      error := None;
      isDrawerOpen := false;
      isModalOpen := false;
    }

    /** `set({ isLoading: true, error: null })`, the first step of every remote action. */
    method BeginRequest()
      modifies this
      ensures isLoading && error == None
      ensures invoices == old(invoices) && selectedInvoice == old(selectedInvoice)
      ensures isDrawerOpen == old(isDrawerOpen) && isModalOpen == old(isModalOpen)
    {
      isLoading, error := true, None;
    }

    /** `fetchInvoices()`; `response` is the select's data (possibly null) or its error. */
    method FetchInvoices(response: Remote<Option<seq<Invoice>>>)
      modifies this
      ensures !isLoading
      ensures response.Ok? ==> invoices == response.data.GetOr([]) && error == None
      ensures response.Err? ==> invoices == old(invoices) && error == Some(response.message)
      ensures selectedInvoice == old(selectedInvoice)
      ensures isDrawerOpen == old(isDrawerOpen) && isModalOpen == old(isModalOpen)
    {
      BeginRequest();
      match response
      case Ok(data) =>
        invoices := data.GetOr([]);
        isLoading := false;
      case Err(message) =>
        error := Some(message);
        isLoading := false;
    }

    /** `fetchInvoiceById(id)`; `response` is the single row or the error. */
    method FetchInvoiceById(id: string, response: Remote<Invoice>)
      modifies this
      ensures !isLoading
      ensures response.Ok? ==> selectedInvoice == Some(response.data) && error == None
      ensures response.Err? ==> selectedInvoice == old(selectedInvoice) && error == Some(response.message)
      ensures invoices == old(invoices)
      ensures isDrawerOpen == old(isDrawerOpen) && isModalOpen == old(isModalOpen)
    {
      BeginRequest();
      match response
      case Ok(row) =>
        selectedInvoice := Some(row);
        isLoading := false;
      case Err(message) =>
        error := Some(message);
        isLoading := false;
    }

    /** `createInvoice(payload)`: `inserted` is the insert's outcome, `refetch` that of the fetch it triggers. */
    method CreateInvoice(payload: InvoiceInsert, inserted: Remote<()>, refetch: Remote<Option<seq<Invoice>>>)
      modifies this
      ensures !isLoading
      ensures inserted.Err? ==> invoices == old(invoices) && error == Some(inserted.message)
      ensures inserted.Ok? && refetch.Ok? ==> invoices == refetch.data.GetOr([]) && error == None
      ensures inserted.Ok? && refetch.Err? ==> invoices == old(invoices) && error == Some(refetch.message)
      ensures selectedInvoice == old(selectedInvoice)
      ensures isDrawerOpen == old(isDrawerOpen) && isModalOpen == old(isModalOpen)
    {
      BeginRequest();
      match inserted
      case Ok(_) =>
        FetchInvoices(refetch);
        isLoading := false;
      case Err(message) =>
        error := Some(message);
        isLoading := false;
    }

    /** `updateInvoice(id, patch)`: `updated` is the update's outcome, `refetch` that of the fetch it triggers. */
    method UpdateInvoice(id: string, patch: InvoicePatch, updated: Remote<()>, refetch: Remote<Option<seq<Invoice>>>)
      modifies this
      ensures !isLoading
      ensures updated.Err? ==> invoices == old(invoices) && error == Some(updated.message)
      ensures updated.Ok? && refetch.Ok? ==> invoices == refetch.data.GetOr([]) && error == None
      ensures updated.Ok? && refetch.Err? ==> invoices == old(invoices) && error == Some(refetch.message)
      ensures selectedInvoice == old(selectedInvoice)
      ensures isDrawerOpen == old(isDrawerOpen) && isModalOpen == old(isModalOpen)
    {
      BeginRequest();
      match updated
      case Ok(_) =>
        FetchInvoices(refetch);
        isLoading := false;
      case Err(message) =>
        error := Some(message);
        isLoading := false;
    }

    /** `deleteInvoice(id)`: on success the entries with that id leave the list, nothing is refetched. */
    method DeleteInvoice(id: string, deleted: Remote<()>)
      modifies this
      ensures !isLoading
      ensures deleted.Ok? ==> invoices == WithoutId(old(invoices), id) && error == None
      ensures deleted.Err? ==> invoices == old(invoices) && error == Some(deleted.message)
      ensures selectedInvoice == old(selectedInvoice)
      ensures isDrawerOpen == old(isDrawerOpen) && isModalOpen == old(isModalOpen)
    {
      BeginRequest();
      match deleted
      case Ok(_) =>
        invoices := WithoutId(invoices, id);
        isLoading := false;
      case Err(message) =>
        error := Some(message);
        isLoading := false;
    }

    method SelectInvoice(invoice: Option<Invoice>)
      modifies this
      ensures selectedInvoice == invoice
      ensures invoices == old(invoices) && isLoading == old(isLoading) && error == old(error)
      ensures isDrawerOpen == old(isDrawerOpen) && isModalOpen == old(isModalOpen)
    {
      selectedInvoice := invoice;
    }

    method OpenDrawer()
      modifies this
      ensures isDrawerOpen
      ensures invoices == old(invoices) && selectedInvoice == old(selectedInvoice)
      ensures isLoading == old(isLoading) && error == old(error) && isModalOpen == old(isModalOpen)
    {
      isDrawerOpen := true;
    }

    method CloseDrawer()
      modifies this
      ensures !isDrawerOpen
      ensures invoices == old(invoices) && selectedInvoice == old(selectedInvoice)
      ensures isLoading == old(isLoading) && error == old(error) && isModalOpen == old(isModalOpen)
    {
      isDrawerOpen := false;
    }

    /** Selects `invoice` and opens the modal in one step. */
    method OpenModal(invoice: Invoice)
      modifies this
      ensures selectedInvoice == Some(invoice) && isModalOpen
      ensures invoices == old(invoices) && isLoading == old(isLoading) && error == old(error)
      ensures isDrawerOpen == old(isDrawerOpen)
    {
      selectedInvoice, isModalOpen := Some(invoice), true;
    }

    /** Closes the modal and keeps the selection. */
    method CloseModal()
      modifies this
      ensures !isModalOpen
      ensures invoices == old(invoices) && selectedInvoice == old(selectedInvoice)
      ensures isLoading == old(isLoading) && error == old(error) && isDrawerOpen == old(isDrawerOpen)
    {
      isModalOpen := false;
    }
  }

  /**
   * Opening the modal and then clearing the selection leaves the modal open
   * with nothing selected: the two setters do not keep them in step.
   */
  method ModalOpenWithoutSelection(invoice: Invoice) returns (modalOpen: bool, selection: Option<Invoice>)
    ensures modalOpen && selection == None
  {
    var store := new Store();
    store.OpenModal(invoice);
    store.SelectInvoice(None);
    modalOpen, selection := store.isModalOpen, store.selectedInvoice;
  }
}
