/**
 * The invoice creation drawer: its form defaults, the editable list of line
 * items, the per-row amounts that feed the totals, and the submit handler.
 * `calculateInvoiceTotals` and the schema's `generateInvoiceNumber` live in a
 * validation module that is not part of this model: the first is a function
 * parameter, the numbers the second produces are string parameters.
 */
module InvoiceDrawer {
  import opened Wrappers
  import opened Database
  import InvoiceStore
  import AuthStore

  /** A row of the form's `items` field array. */
  datatype LineItem = LineItem(description: string, quantity: int, unitPrice: int, amount: int)

  /** What `calculateInvoiceTotals(items, taxRate)` returns. */
  datatype Totals = Totals(subtotal: int, taxAmount: int, total: int)

  /** The form's values. */
  datatype FormValues = FormValues(
    invoiceNumber: string,
    clientId: Option<string>,
    notes: Option<string>,
    status: Status,
    issueDate: int,
    dueDate: int,
    items: seq<LineItem>,
    taxRate: int,
    isRecurring: bool)

  /** Thirty days in milliseconds. */
  const ThirtyDaysMs: int := 30 * 24 * 60 * 60 * 1000

  /** The row the form starts with and the one "ADD ITEM" appends. */
  const BlankItem: LineItem := LineItem("", 1, 0, 0)

  /** The form's default values when it is created at `nowMs`. */
  function DefaultValues(nowMs: int, generatedNumber: string): (v: FormValues)
    ensures v.invoiceNumber == generatedNumber
    ensures v.status == Draft
    ensures v.issueDate == nowMs && v.dueDate == nowMs + 2592000000
    ensures |v.items| == 1 && v.items[0] == LineItem("", 1, 0, 0)
    ensures v.taxRate == 0 && !v.isRecurring
    ensures v.clientId == None && v.notes == None
  {
    FormValues(generatedNumber, None, None, Draft, nowMs, nowMs + ThirtyDaysMs, [BlankItem], 0, false)
  }

  /** The rows handed to the totals, each with `amount` recomputed as quantity times unit price. */
  function PricedItems(items: seq<LineItem>): (r: seq<LineItem>)
    ensures |r| == |items|
    ensures forall i :: 0 <= i < |items| ==>
      r[i].amount == items[i].quantity * items[i].unitPrice && r[i] == items[i].(amount := r[i].amount)
  {
    seq(|items|, i requires 0 <= i < |items| => items[i].(amount := items[i].quantity * items[i].unitPrice))
  }

  /** The stored amounts play no part: rows that agree apart from them price the same. */
  lemma PricedItemsIgnoresStoredAmount(a: seq<LineItem>, b: seq<LineItem>)
    requires |a| == |b|
    requires forall i :: 0 <= i < |a| ==> a[i].(amount := 0) == b[i].(amount := 0)
    ensures PricedItems(a) == PricedItems(b)
  {
    forall i | 0 <= i < |a| ensures PricedItems(a)[i] == PricedItems(b)[i] {
      assert a[i].quantity == a[i].(amount := 0).quantity;
      assert b[i].quantity == b[i].(amount := 0).quantity;
    }
  }

  /** Pricing priced rows changes nothing. */
  lemma PricedItemsIdempotent(items: seq<LineItem>)
    ensures PricedItems(PricedItems(items)) == PricedItems(items)
  {
  }

  /** The record `onSubmit` hands to `createInvoice`: the form's fields without `items`, plus owner and totals. */
  function BuildPayload(values: FormValues, userId: string, fallbackNumber: string, totals: Totals): (p: InvoiceInsert)
    ensures p.userId == userId
    ensures values.invoiceNumber != "" ==> p.invoiceNumber == values.invoiceNumber
    ensures values.invoiceNumber == "" ==> p.invoiceNumber == fallbackNumber
    ensures p.subtotal == totals.subtotal && p.taxAmount == totals.taxAmount && p.total == totals.total
    ensures p.clientId == values.clientId && p.status == values.status && p.notes == values.notes
    ensures p.issueDate == values.issueDate && p.dueDate == values.dueDate
    ensures p.taxRate == values.taxRate && p.isRecurring == values.isRecurring
  {
    InvoiceInsert(
      userId,
      values.clientId,
      if values.invoiceNumber != "" then values.invoiceNumber else fallbackNumber,
      values.status,
      values.issueDate,
      values.dueDate,
      totals.subtotal,
      values.taxRate,
      totals.taxAmount,
      totals.total,
      values.notes,
      values.isRecurring)
  }

  class Drawer {
    var values: FormValues
    var isSubmitting: bool

    /** The field array is never empty. */
    predicate Valid()
      reads this
    {
      |values.items| >= 1
    }

    /** The remove button is rendered only when more than one row exists. */
    predicate RemoveOffered()
      reads this
    {
      |values.items| > 1
    }

    /** The totals shown and submitted, from the live rows. */
    function CurrentTotals(calculateTotals: (seq<LineItem>, int) -> Totals): (totals: Totals)
      reads this
    {
      calculateTotals(PricedItems(values.items), values.taxRate)
    }

    /** A fresh form opened at `nowMs`. */
    constructor (nowMs: int, generatedNumber: string)
      ensures Valid()
      ensures values == DefaultValues(nowMs, generatedNumber)
      ensures !isSubmitting
    {
      values := DefaultValues(nowMs, generatedNumber);
      isSubmitting := false;
    }

    /** "ADD ITEM": one blank row at the end. */
    method AppendItem()
      requires Valid()
      modifies this
      ensures Valid()
      ensures values == old(values).(items := old(values.items) + [BlankItem])
      ensures isSubmitting == old(isSubmitting)
    {
      values := values.(items := values.items + [BlankItem]);
    }

    /** The remove button of row `index`. */
    method RemoveItem(index: nat)
      requires Valid() && RemoveOffered() && index < |values.items|
      modifies this
      ensures Valid()
      ensures values == old(values).(items := old(values.items)[..index] + old(values.items)[index + 1..])
      ensures isSubmitting == old(isSubmitting)
    {
      values := values.(items := values.items[..index] + values.items[index + 1..]);
    }

    /** Typing into the inputs of row `index`. */
    method EditItem(index: nat, item: LineItem)
      requires Valid() && index < |values.items|
      modifies this
      ensures Valid()
      ensures values == old(values).(items := old(values.items)[index := item])
      ensures isSubmitting == old(isSubmitting)
    {
      values := values.(items := values.items[index := item]);
    }

    /** `setValue('status', status)`, as "SAVE AS DRAFT" does before submitting. */
    method SetStatus(status: Status)
      requires Valid()
      modifies this
      ensures Valid()
      ensures values == old(values).(status := status)
      ensures isSubmitting == old(isSubmitting)
    {
      values := values.(status := status);
    }

    /**
     * `onSubmit(values)`: without a user id nothing happens; otherwise the
     * payload is created through the store and the drawer is closed, whatever
     * the insert's outcome, since `createInvoice` never throws.
     */
    method Submit(
      user: Option<AuthStore.User>,
      store: InvoiceStore.Store,
      calculateTotals: (seq<LineItem>, int) -> Totals,
      fallbackNumber: string,
      inserted: Remote<()>,
      refetch: Remote<Option<seq<Invoice>>>)
      returns (payload: Option<InvoiceInsert>)
      requires Valid()
      modifies this, store
      ensures Valid() && values == old(values)
      ensures (user.None? || user.value.id == "") ==>
        payload == None && isSubmitting == old(isSubmitting) && unchanged(store)
      ensures user.Some? && user.value.id != "" ==>
        && payload == Some(BuildPayload(values, user.value.id, fallbackNumber, CurrentTotals(calculateTotals)))
        && !isSubmitting
        && !store.isDrawerOpen && !store.isLoading
        && store.invoices == (if inserted.Ok? && refetch.Ok? then refetch.data.GetOr([]) else old(store.invoices))
        && store.error == (if inserted.Err? then Some(inserted.message)
                           else if refetch.Err? then Some(refetch.message) else None)
        && store.selectedInvoice == old(store.selectedInvoice) && store.isModalOpen == old(store.isModalOpen)
    {
      if user.None? || user.value.id == "" {
        return None;
      }
      isSubmitting := true;
      var totals := CurrentTotals(calculateTotals);
      var data := BuildPayload(values, user.value.id, fallbackNumber, totals);
      store.CreateInvoice(data, inserted, refetch);
      store.CloseDrawer();
      isSubmitting := false;
      payload := Some(data);
    }
  }
}
