/** The invoice table's own search box and its row click. */
module InvoiceTable {
  import opened Wrappers
  import opened Database
  import opened JsString
  import JsArray
  import InvoiceStore

  /** The lower-cased query occurs in the lower-cased number, `client_name` or `client_email`. */
  predicate RowMatches(inv: Invoice, searchQuery: string) {
    var query := ToLowerCase(searchQuery);
    || Includes(ToLowerCase(inv.invoiceNumber), query)
    || (inv.clientName.Some? && Includes(ToLowerCase(inv.clientName.value), query))
    || (inv.clientEmail.Some? && Includes(ToLowerCase(inv.clientEmail.value), query))
  }

  /** `filteredInvoices`: the store's invoices matching the search box. */
  function FilteredRows(invoices: seq<Invoice>, searchQuery: string): (r: seq<Invoice>)
    ensures JsArray.IsSubsequence(r, invoices)
    ensures forall i :: 0 <= i < |r| ==> RowMatches(r[i], searchQuery)
    ensures forall i :: 0 <= i < |invoices| && RowMatches(invoices[i], searchQuery) ==> invoices[i] in r
    ensures forall x :: multiset(r)[x] == if RowMatches(x, searchQuery) then multiset(invoices)[x] else 0
  {
    forall x {
      JsArray.FilterMultiset(invoices, (inv: Invoice) => RowMatches(inv, searchQuery), x);
    }
    JsArray.FilterIsSubsequence(invoices, (inv: Invoice) => RowMatches(inv, searchQuery));
    JsArray.Filter(invoices, (inv: Invoice) => RowMatches(inv, searchQuery))
  }

  /** An empty search box shows every invoice, in order. */
  lemma EmptyQueryKeepsAll(invoices: seq<Invoice>)
    ensures FilteredRows(invoices, "") == invoices
  {
    forall i | 0 <= i < |invoices| ensures RowMatches(invoices[i], "") {
      EmptyIsIncluded(ToLowerCase(invoices[i].invoiceNumber));
    }
    JsArray.FilterKeepsAll(invoices, (inv: Invoice) => RowMatches(inv, ""));
  }

  /** A row without `client_name` and `client_email` matches on its number alone. */
  lemma MissingClientFieldsNeverMatch(inv: Invoice, searchQuery: string)
    requires inv.clientName.None? && inv.clientEmail.None?
    ensures RowMatches(inv, searchQuery) <==> Includes(ToLowerCase(inv.invoiceNumber), ToLowerCase(searchQuery))
  {
  }

  /** Clicking row `k` of the shown rows opens the modal on that invoice. */
  method ClickRow(store: InvoiceStore.Store, rows: seq<Invoice>, k: nat)
    requires k < |rows|
    modifies store
    ensures store.selectedInvoice == Some(rows[k]) && store.isModalOpen
    ensures store.invoices == old(store.invoices) && store.isDrawerOpen == old(store.isDrawerOpen)
    ensures store.isLoading == old(store.isLoading) && store.error == old(store.error)
  {
    store.OpenModal(rows[k]);
  }
}
