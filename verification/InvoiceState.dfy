/** The invoice state machine: the only place transitions are defined. */
module InvoiceState {
  import opened Common
  import opened Schema

  datatype Transition = BeginPayment | PaymentSucceeded | PaymentFailed | VoidInvoice {

    function From(): InvoiceStatus {
      match this
      case BeginPayment | VoidInvoice => Open
      case PaymentSucceeded | PaymentFailed => Processing
    }

    function To(): InvoiceStatus {
      match this
      case BeginPayment => Processing
      case PaymentSucceeded => Paid
      case PaymentFailed => Open
      case VoidInvoice => Void
    }

    /** The error for attempting this transition on an invoice that is `current`. */
    function Rejection(current: InvoiceStatus): Reply {
      var code :=
        if this == BeginPayment && current == Paid then "invoice_already_paid"
        else if current == Processing then "payment_in_progress"
        else "invalid_state_transition";
      Reply(409, Some(code), CurrentStatus(current))
    }

    /** The row the UPDATE writes. */
    function Move(invoice: Invoice, now: Time): Invoice {
      invoice.(
        status := To(),
        paidAt := if To() == Paid then Some(now) else invoice.paidAt,
        voidedAt := if To() == Void then Some(now) else invoice.voidedAt)
    }
  }

  predicate Terminal(status: InvoiceStatus) { status == Paid || status == Void }
}
