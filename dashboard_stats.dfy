/** The dashboard's stat cards, which compute their own sums over the store's list. */
module DashboardStats {
  import opened Database
  import JsArray
  import InvoiceStore

  datatype CardAmounts = CardAmounts(totalReceived: int, pending: int, drafts: int)

  /** The three amounts the component computes from `invoices`. */
  function CardAmountsOf(invoices: seq<Invoice>): (c: CardAmounts) {
    CardAmounts(
      InvoiceStore.SumTotals(JsArray.Filter(invoices, (inv: Invoice) => inv.status == Paid)),
      InvoiceStore.SumTotals(JsArray.Filter(invoices, (inv: Invoice) => inv.status == Sent || inv.status == Overdue)),
      InvoiceStore.SumTotals(JsArray.Filter(invoices, (inv: Invoice) => inv.status == Draft)))
  }

  /** The component's amounts are the store selector's on the same list. */
  lemma AgreesWithStoreSelector(invoices: seq<Invoice>)
    ensures var c, st := CardAmountsOf(invoices), InvoiceStore.DashboardStatsOf(invoices);
      c.totalReceived == st.totalReceived && c.pending == st.pending && c.drafts == st.drafts
  {
    JsArray.FilterExtensional(invoices, (inv: Invoice) => inv.status == Paid, InvoiceStore.IsPaid);
    JsArray.FilterExtensional(invoices, (inv: Invoice) => inv.status == Sent || inv.status == Overdue, InvoiceStore.IsPending);
    JsArray.FilterExtensional(invoices, (inv: Invoice) => inv.status == Draft, InvoiceStore.IsDraft);
  }

  /** Received, pending and drafts together are the total of every invoice that is not cancelled. */
  lemma {:induction false} CardsCoverNonCancelled(invoices: seq<Invoice>)
    ensures var c := CardAmountsOf(invoices);
      c.totalReceived + c.pending + c.drafts
        == InvoiceStore.SumTotals(JsArray.Filter(invoices, (inv: Invoice) => inv.status != Cancelled))
  {
    if invoices != [] {
      CardsCoverNonCancelled(invoices[1..]);
      InvoiceStore.SumFilteredStep(invoices, (inv: Invoice) => inv.status == Paid);
      InvoiceStore.SumFilteredStep(invoices, (inv: Invoice) => inv.status == Sent || inv.status == Overdue);
      InvoiceStore.SumFilteredStep(invoices, (inv: Invoice) => inv.status == Draft);
      InvoiceStore.SumFilteredStep(invoices, (inv: Invoice) => inv.status != Cancelled);
    }
  }
}
