/**
 * Look-ups over the bundled fixture data. The fixture arrays themselves are
 * parameters: `mockInvoices`, `mockInvoiceItems`, `mockClients`, `mockPayments`.
 */
module MockData {
  import opened Wrappers
  import opened Database
  import JsArray

  datatype InvoiceWithItems = InvoiceWithItems(invoice: Invoice, items: seq<InvoiceItem>)

  /** `loadMockInvoices()`: the invoice fixture, as bundled. */
  function LoadMockInvoices(mockInvoices: seq<Invoice>): (r: seq<Invoice>)
    ensures r == mockInvoices
  {
    mockInvoices
  }

  /** `getMockInvoiceWithItems(invoiceId)` */
  function GetMockInvoiceWithItems(mockInvoices: seq<Invoice>, mockInvoiceItems: seq<InvoiceItem>, invoiceId: string)
    : (r: Option<InvoiceWithItems>)
    ensures r.None? <==> forall i :: 0 <= i < |mockInvoices| ==> mockInvoices[i].id != invoiceId
    ensures r.Some? ==> r.value.invoice.id == invoiceId && exists k :: (
      && 0 <= k < |mockInvoices| && mockInvoices[k] == r.value.invoice
      && forall j :: 0 <= j < k ==> mockInvoices[j].id != invoiceId)
    ensures r.Some? ==> JsArray.IsSubsequence(r.value.items, mockInvoiceItems)
    ensures r.Some? ==> forall i :: 0 <= i < |r.value.items| ==> r.value.items[i].invoiceId == invoiceId
    ensures r.Some? ==> forall i :: (0 <= i < |mockInvoiceItems| && mockInvoiceItems[i].invoiceId == invoiceId
      ==> mockInvoiceItems[i] in r.value.items)
    ensures r.Some? ==> forall x :: (multiset(r.value.items)[x]
      == if x.invoiceId == invoiceId then multiset(mockInvoiceItems)[x] else 0)
  {
    forall x {
      JsArray.FilterMultiset(mockInvoiceItems, (item: InvoiceItem) => item.invoiceId == invoiceId, x);
    }
    var invoice := JsArray.Find(mockInvoices, (inv: Invoice) => inv.id == invoiceId);
    var items := JsArray.Filter(mockInvoiceItems, (item: InvoiceItem) => item.invoiceId == invoiceId);
    JsArray.FilterIsSubsequence(mockInvoiceItems, (item: InvoiceItem) => item.invoiceId == invoiceId);
    if invoice.Some? then Some(InvoiceWithItems(invoice.value, items)) else None
  }

  /** `getMockClient(clientId)`: the first fixture client with the id. */
  function GetMockClient(mockClients: seq<Client>, clientId: string): (r: Option<Client>)
    ensures r.None? <==> forall i :: 0 <= i < |mockClients| ==> mockClients[i].id != clientId
    ensures r.Some? ==> r.value.id == clientId && exists k :: (
      && 0 <= k < |mockClients| && mockClients[k] == r.value
      && forall j :: 0 <= j < k ==> mockClients[j].id != clientId)
  {
    JsArray.Find(mockClients, (client: Client) => client.id == clientId)
  }

  /** `getMockPayments(invoiceId)`: the fixture payments of one invoice, in fixture order. */
  function GetMockPayments(mockPayments: seq<Payment>, invoiceId: string): (r: seq<Payment>)
    ensures JsArray.IsSubsequence(r, mockPayments)
    ensures forall i :: 0 <= i < |r| ==> r[i].invoiceId == invoiceId
    ensures forall i :: 0 <= i < |mockPayments| && mockPayments[i].invoiceId == invoiceId ==> mockPayments[i] in r
    ensures forall x :: multiset(r)[x] == if x.invoiceId == invoiceId then multiset(mockPayments)[x] else 0
  {
    forall x {
      JsArray.FilterMultiset(mockPayments, (payment: Payment) => payment.invoiceId == invoiceId, x);
    }
    JsArray.FilterIsSubsequence(mockPayments, (payment: Payment) => payment.invoiceId == invoiceId);
    JsArray.Filter(mockPayments, (payment: Payment) => payment.invoiceId == invoiceId)
  }
}
