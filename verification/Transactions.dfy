/** Every transaction of the payment tables, as a function from the committed tables to the new ones. */
module Transactions {
  import opened Common
  import opened Schema
  import opened InvoiceState
  import opened Psp

  const MAX_BACKOFF: Time := 60 * SECOND

  datatype ClaimResult =
    | Claimed(attempt: Id, amount: nat)
    | Rejected(reply: Reply)
    | Replay(reply: Reply)
    | AwaitingSettlement(attempt: Id)
    | Refused(reply: Reply)

  // ----- Reads

  function Find(db: Db, business: Id, invoice: Id): Option<Invoice> {
    if invoice in db.invoices && db.invoices[invoice].business == business then Some(db.invoices[invoice]) else None
  }

  predicate CasMatches(db: Db, business: Id, invoice: Id, transition: Transition) {
    var found := Find(db, business, invoice);
    found.Some? && found.value.status == transition.From()
  }

  /** The reply an attempt's current state stands for. */
  function AttemptReply(invoice: Invoice, attempt: Attempt): Reply {
    match attempt.status
    case Succeeded => Reply(200, None, Resources(invoice, attempt))
    case Failed =>
      var code := if attempt.failureCode.Some? then attempt.failureCode.value else "payment_failed";
      Reply(402, Some(code), Resources(invoice, attempt))
    case Pending => Reply(202, None, Resources(invoice, attempt))
  }

  /** The answer stored for an attempt; keys.attempt is a unique column. */
  ghost function StoredFor(keys: map<KeyId, KeyRow>, attempt: Id): Option<Reply> {
    if exists k :: k in keys && keys[k].attempt == Some(attempt) then
      var k :| k in keys && keys[k].attempt == Some(attempt);
      keys[k].response
    else None
  }

  // ----- POST /pay, first transaction

  /** How a key that was used before answers a request. */
  function Resolve(row: KeyRow, fingerprint: Fingerprint): ClaimResult {
    if row.fingerprint != fingerprint then Refused(Failure(422, "idempotency_key_reused"))
    else if row.response.Some? then Replay(row.response.value)
    else if row.attempt.Some? then AwaitingSettlement(row.attempt.value)
    else Refused(Failure(409, "idempotency_key_in_use"))
  }

  function NewAttempt(invoice: Id, row: Invoice, started: Time, firstLook: Time): Attempt {
    Attempt(invoice, row.business, row.total, AttemptStatus.Pending, None, None, started, None, Some(started + firstLook), 0)
  }

  /** The claim once the compare-and-set has matched. `started` is the transaction's now(). */
  function ApplyClaim(
    db: Db, key: KeyId, fingerprint: Fingerprint, attempt: Id, started: Time, firstLook: Time
  ): Db
    requires fingerprint.invoice in db.invoices
  {
    var invoice := fingerprint.invoice;
    var row := BeginPayment.Move(db.invoices[invoice], started);
    Db(db.invoices[invoice := row],
       db.attempts[attempt := NewAttempt(invoice, row, started, firstLook)],
       db.keys[key := KeyRow(fingerprint, Some(attempt), None)],
       db.events)
  }

  function ClaimRejection(found: Option<Invoice>): Reply {
    if found.None? then NotFound() else BeginPayment.Rejection(found.value.status)
  }

  /** The claim once the compare-and-set has failed and the invoice was read to explain it. */
  function Explained(db: Db, key: KeyId, fingerprint: Fingerprint): (Db, ClaimResult) {
    var found := Find(db, key.business, fingerprint.invoice);
    var reply := ClaimRejection(found);
    if found.Some? && found.value.status == InvoiceStatus.Processing then (db, Refused(reply))
    else (db.(keys := db.keys[key := KeyRow(fingerprint, None, Some(reply))]), Rejected(reply))
  }

  function Claim(
    db: Db, key: KeyId, fingerprint: Fingerprint, attempt: Id, started: Time, firstLook: Time
  ): (Db, ClaimResult)
  {
    if key in db.keys then (db, Resolve(db.keys[key], fingerprint))
    else if CasMatches(db, key.business, fingerprint.invoice, BeginPayment) then
      (ApplyClaim(db, key, fingerprint, attempt, started, firstLook),
       Claimed(attempt, db.invoices[fingerprint.invoice].total))
    else Explained(db, key, fingerprint)
  }

  // ----- Settling

  function SettleTransition(settlement: Settlement): Transition {
    if settlement.Succeeded? then PaymentSucceeded else PaymentFailed
  }

  function SettleEvent(settlement: Settlement): EventKind {
    if settlement.Succeeded? then InvoicePaid else InvoicePaymentFailed
  }

  function SettledRow(attempt: Attempt, settlement: Settlement, now: Time): Attempt {
    match settlement
    case Succeeded(pspRef) =>
      attempt.(status := AttemptStatus.Succeeded, pspRef := Some(pspRef), failureCode := None,
               settledAt := Some(now), reconcileAfter := None)
    case Failed(code) =>
      attempt.(status := AttemptStatus.Failed, pspRef := None, failureCode := Some(code),
               settledAt := Some(now), reconcileAfter := None)
  }

  function Completed(row: KeyRow, attempt: Id, reply: Reply): KeyRow {
    if row.attempt == Some(attempt) && row.response.None? then row.(response := Some(reply)) else row
  }

  function CompletedFor(keys: map<KeyId, KeyRow>, attempt: Id, reply: Reply): map<KeyId, KeyRow> {
    map k | k in keys :: Completed(keys[k], attempt, reply)
  }

  predicate Settleable(db: Db, attempt: Id) {
    && attempt in db.attempts
    && db.attempts[attempt].status == AttemptStatus.Pending
  }

  /** The settlement once the guard on the attempt and the compare-and-set on its invoice have matched. */
  function ApplySettlement(db: Db, attempt: Id, settlement: Settlement, now: Time): (Db, Reply)
    requires attempt in db.attempts && db.attempts[attempt].invoice in db.invoices
  {
    var invoice := db.attempts[attempt].invoice;
    var attemptRow := SettledRow(db.attempts[attempt], settlement, now);
    var invoiceRow := SettleTransition(settlement).Move(db.invoices[invoice], now);
    var reply := AttemptReply(invoiceRow, attemptRow);
    (Db(db.invoices[invoice := invoiceRow],
        db.attempts[attempt := attemptRow],
        CompletedFor(db.keys, attempt, reply),
        db.events + [Event(attemptRow.business, SettleEvent(settlement), invoice)]),
     reply)
  }

  ghost function Settle(db: Db, attempt: Id, settlement: Settlement, now: Time): (Db, Result<Reply, Reply>) {
    if !Settleable(db, attempt) then
      var stored := StoredFor(db.keys, attempt);
      (db, if stored.Some? then Ok(stored.value) else Err(Internal()))
    else
      var row := db.attempts[attempt];
      if CasMatches(db, row.business, row.invoice, SettleTransition(settlement)) then
        var (next, reply) := ApplySettlement(db, attempt, settlement, now);
        (next, Ok(reply))
      else (db, Err(Internal()))
  }

  // ----- Creating and voiding invoices

  function Created(db: Db, invoice: Id, business: Id, total: nat): Db {
    db.(invoices := db.invoices[invoice := Invoice(business, total, InvoiceStatus.Open, None, None)],
        events := db.events + [Event(business, InvoiceCreated, invoice)])
  }

  function Voided(db: Db, business: Id, invoice: Id, now: Time): (Db, Result<Invoice, Reply>) {
    if CasMatches(db, business, invoice, VoidInvoice) then
      var row := VoidInvoice.Move(db.invoices[invoice], now);
      (db.(invoices := db.invoices[invoice := row],
           events := db.events + [Event(business, InvoiceVoided, invoice)]),
       Ok(row))
    else
      var found := Find(db, business, invoice);
      (db, Err(if found.None? then NotFound() else VoidInvoice.Rejection(found.value.status)))
  }

  // ----- Reconciler bookkeeping

  predicate IsDue(attempt: Attempt, now: Time) {
    && attempt.status == AttemptStatus.Pending
    && attempt.reconcileAfter.Some?
    && attempt.reconcileAfter.value <= now
  }

  function Leased(attempt: Attempt, now: Time, lease: Time): Attempt {
    attempt.(reconcileAfter := Some(now + lease), reconcileCount := attempt.reconcileCount + 1)
  }

  const BATCH_SIZE: nat := 16

  /** The column claim_due orders by, restricted to the due rows that nobody has locked. */
  function DueColumn(attempts: map<Id, Attempt>, locked: set<Id>, now: Time): map<Id, int> {
    map a | a in attempts && IsDue(attempts[a], now) && a !in locked :: attempts[a].reconcileAfter.value
  }

  function LeaseAll(attempts: map<Id, Attempt>, batch: seq<Id>, now: Time, lease: Time): map<Id, Attempt> {
    map a | a in attempts :: if a in batch then Leased(attempts[a], now, lease) else attempts[a]
  }

  function PastGrace(attempt: Attempt, now: Time, grace: Time): bool {
    attempt.createdAt + grace < now
  }

  function Power2(exponent: nat): nat { if exponent == 0 then 1 else 2 * Power2(exponent - 1) }

  /** 1 s, 2 s, 4 s, ... capped at 60 s. `checks` is a 32-bit count; the subtraction saturates. */
  function Backoff(checks: int): (delay: Time)
    ensures SECOND <= delay <= MAX_BACKOFF
    ensures 1 <= checks <= 6 ==> delay == Power2(checks - 1) * SECOND
    ensures 7 <= checks ==> delay == MAX_BACKOFF
    ensures checks <= 1 ==> delay == SECOND
  {
    var exponent := if checks - 1 < 0 then 0 else if checks - 1 < 6 then checks - 1 else 6;
    assert exponent >= 6 ==> Power2(exponent) == 64 by { PowersOfTwo(); }
    assert exponent < 6 ==> 1 <= Power2(exponent) <= 32 by { PowersOfTwo(); }
    var delay := Power2(exponent) * SECOND;
    if delay < MAX_BACKOFF then delay else MAX_BACKOFF
  }

  lemma PowersOfTwo()
    ensures Power2(0) == 1 && Power2(1) == 2 && Power2(2) == 4 && Power2(3) == 8
    ensures Power2(4) == 16 && Power2(5) == 32 && Power2(6) == 64
  {
    assert Power2(2) == 4;
    assert Power2(4) == 16;
  }

  function Rescheduled(db: Db, attempt: Id, checks: nat, now: Time): Db {
    if Settleable(db, attempt) then
      db.(attempts := db.attempts[attempt := db.attempts[attempt].(reconcileAfter := Some(now + Backoff(checks)))])
    else db
  }
}
