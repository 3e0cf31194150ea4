/**
 * Row shapes of the remote tables the dashboard reads and writes.
 * Money and quantities are whole numbers (cents, units); dates are
 * millisecond timestamps, the value `new Date(text).getTime()` gives.
 */
module Database {
  import opened Wrappers

  datatype Status = Draft | Sent | Paid | Overdue | Cancelled

  datatype Frequency = Weekly | Monthly | Quarterly | Yearly

  datatype PaymentMethod = BankTransfer | Card | Cash | Mpesa | Other

  /** The status as it is spelled in a row. */
  function StatusName(s: Status): (name: string) {
    match s
    case Draft => "draft"
    case Sent => "sent"
    case Paid => "paid"
    case Overdue => "overdue"
    case Cancelled => "cancelled"
  }

  /** A client record joined onto an invoice row (`invoice.client`); rows selected with `*` carry none. */
  datatype ClientRef = ClientRef(name: string, email: string)

  /** A row of the `invoices` table, with its legacy `client_name`/`client_email` columns. */
  datatype Invoice = Invoice(
    id: string,
    userId: string,
    clientId: Option<string>,
    invoiceNumber: string,
    status: Status,
    issueDate: int,
    dueDate: int,
    subtotal: int,
    taxRate: int,
    taxAmount: int,
    total: int,
    notes: Option<string>,
    isRecurring: bool,
    recurringFrequency: Option<Frequency>,
    createdAt: int,
    updatedAt: int,
    clientName: Option<string>,
    clientEmail: Option<string>,
    client: Option<ClientRef>)

  /** The fields sent to create an invoice row (no `id`, no line items). */
  datatype InvoiceInsert = InvoiceInsert(
    userId: string,
    clientId: Option<string>,
    invoiceNumber: string,
    status: Status,
    issueDate: int,
    dueDate: int,
    subtotal: int,
    taxRate: int,
    taxAmount: int,
    total: int,
    notes: Option<string>,
    isRecurring: bool)

  /** A partial update of an invoice row: each present field is overwritten. */
  datatype InvoicePatch = InvoicePatch(
    status: Option<Status>,
    dueDate: Option<int>,
    total: Option<int>,
    notes: Option<string>)

  /** A row of the `invoice_items` table. */
  datatype InvoiceItem = InvoiceItem(
    id: string,
    invoiceId: string,
    description: string,
    quantity: int,
    unitPrice: int,
    amount: int,
    order: int)

  /** A row of the `clients` table. */
  datatype Client = Client(
    id: string,
    userId: string,
    name: string,
    email: string,
    companyName: Option<string>,
    address: Option<string>,
    phone: Option<string>)

  /** A row of the `payments` table. */
  datatype Payment = Payment(
    id: string,
    invoiceId: string,
    amount: int,
    paymentDate: int,
    paymentMethod: PaymentMethod,
    reference: Option<string>,
    notes: Option<string>)

  /** What a call to the remote store settles with: its data, or the thrown error's message. */
  datatype Remote<T> = Ok(data: T) | Err(message: string)
}
