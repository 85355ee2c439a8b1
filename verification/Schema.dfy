/** The rows of the payment tables, and the replies built from them. */
module Schema {
  import opened Common

  datatype InvoiceStatus = Open | Processing | Paid | Void

  datatype Invoice = Invoice(
    business: Id,
    total: nat,
    status: InvoiceStatus,
    paidAt: Option<Time>,
    voidedAt: Option<Time>)

  datatype AttemptStatus = Pending | Succeeded | Failed

  datatype Attempt = Attempt(
    invoice: Id,
    business: Id,
    amount: nat,
    status: AttemptStatus,
    pspRef: Option<string>,
    failureCode: Option<string>,
    createdAt: Time,
    settledAt: Option<Time>,
    reconcileAfter: Option<Time>,
    reconcileCount: nat)

  datatype Details =
    | NoDetails
    | CurrentStatus(status: InvoiceStatus)
    | Resources(invoice: Invoice, attempt: Attempt)

  /** A response as stored against a key: status code, error code (absent on success) and body. */
  datatype Reply = Reply(status: nat, code: Option<string>, details: Details)

  function Failure(status: nat, code: string): Reply {
    Reply(status, Some(code), NoDetails)
  }

  function NotFound(): Reply { Failure(404, "resource_not_found") }

  function Internal(): Reply { Failure(500, "internal_error") }

  datatype KeyId = KeyId(business: Id, key: string)

  /** What decides a payment. SHA-256 over the 16-byte id and the token is taken to be injective. */
  datatype Fingerprint = Fingerprint(invoice: Id, cardToken: string)

  datatype KeyRow = KeyRow(fingerprint: Fingerprint, attempt: Option<Id>, response: Option<Reply>)

  datatype EventKind = InvoiceCreated | InvoicePaid | InvoicePaymentFailed | InvoiceVoided

  datatype Event = Event(business: Id, kind: EventKind, invoice: Id)

  /** The committed contents of the payment tables; events in commit order. */
  datatype Db = Db(
    invoices: map<Id, Invoice>,
    attempts: map<Id, Attempt>,
    keys: map<KeyId, KeyRow>,
    events: seq<Event>)
}
