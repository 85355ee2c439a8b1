/** What holds in every state of the payment protocol. */
module PaymentInvariant {
  import opened Common
  import opened Config
  import opened Schema
  import opened InvoiceState
  import opened Psp
  import opened Transactions
  import opened PaymentProtocol
  import opened History

  /** Charge requests cannot outrun the grace window: either the bound on sending and the PSP timeout fit inside
      it, or every request has arrived before the reconciler's first look. */
  predicate Timely(t: Timing) {
    t.sendDelay + t.config.pspTimeout <= t.config.notFoundGrace || t.sendDelay < SECOND
  }

  /** A configuration the service starts with, and charge requests that keep up with it. */
  predicate Sound(t: Timing) {
    t.config.Validate().Ok? && Timely(t)
  }

  /** No charge request for this attempt can reach the PSP any more. */
  predicate Closed(t: Timing, attempt: Attempt, now: Time) {
    attempt.createdAt + t.sendDelay + t.config.pspTimeout < now
  }

  // ----- Rows

  /** The CHECK constraints on invoices. */
  predicate InvoiceRow(row: Invoice) {
    && row.total > 0
    && (row.status == InvoiceStatus.Paid <==> row.paidAt.Some?)
    && (row.status == InvoiceStatus.Void <==> row.voidedAt.Some?)
  }

  /** The CHECK constraints on payment_attempts. */
  predicate AttemptRow(row: Attempt) {
    && row.amount > 0
    && (row.status == AttemptStatus.Succeeded <==> row.pspRef.Some?)
    && (row.status == AttemptStatus.Failed <==> row.failureCode.Some?)
    && (row.status == AttemptStatus.Pending <==> row.settledAt.None?)
    && (row.status == AttemptStatus.Pending <==> row.reconcileAfter.Some?)
  }

  ghost predicate RowsOk(invoices: map<Id, Invoice>, attempts: map<Id, Attempt>) {
    && (forall i :: i in invoices ==> InvoiceRow(invoices[i]))
    && (forall a :: a in attempts ==>
          && AttemptRow(attempts[a])
          && attempts[a].invoice in invoices
          && attempts[a].business == invoices[attempts[a].invoice].business
          && attempts[a].amount == invoices[attempts[a].invoice].total)
  }

  ghost predicate HasAttempt(attempts: map<Id, Attempt>, invoice: Id, status: AttemptStatus) {
    exists a :: a in attempts && attempts[a].invoice == invoice && attempts[a].status == status
  }

  /** What the partial unique indexes forbid two attempts to be. */
  predicate Clash(row: Attempt, other: Attempt) {
    row.invoice == other.invoice && row.status == other.status && row.status != AttemptStatus.Failed
  }

  ghost predicate AttemptsFit(invoices: map<Id, Invoice>, attempts: map<Id, Attempt>) {
    forall a :: a in attempts && attempts[a].invoice in invoices ==>
      && (attempts[a].status == AttemptStatus.Pending ==>
            invoices[attempts[a].invoice].status == InvoiceStatus.Processing)
      && (attempts[a].status == AttemptStatus.Succeeded ==>
            invoices[attempts[a].invoice].status == InvoiceStatus.Paid)
  }

  ghost predicate InvoicesBacked(invoices: map<Id, Invoice>, attempts: map<Id, Attempt>) {
    forall i :: i in invoices ==>
      && (invoices[i].status == InvoiceStatus.Processing ==> HasAttempt(attempts, i, AttemptStatus.Pending))
      && (invoices[i].status == InvoiceStatus.Paid ==> HasAttempt(attempts, i, AttemptStatus.Succeeded))
  }

  ghost predicate NoClash(attempts: map<Id, Attempt>) {
    forall a, b :: a in attempts && b in attempts && Clash(attempts[a], attempts[b]) ==> a == b
  }

  /** Invoice and attempt statuses agree; at most one attempt per invoice is pending, and at most one succeeded. */
  ghost predicate Agree(invoices: map<Id, Invoice>, attempts: map<Id, Attempt>) {
    AttemptsFit(invoices, attempts) && InvoicesBacked(invoices, attempts) && NoClash(attempts)
  }

  // ----- Idempotency keys

  /** A reply that carries the attempt's final outcome. */
  predicate Answers(reply: Reply, attempt: Attempt) {
    && reply.details.Resources?
    && reply.details.attempt == attempt
    && attempt.status != AttemptStatus.Pending
    && reply == AttemptReply(reply.details.invoice, attempt)
    && reply.details.invoice.business == attempt.business
    && reply.details.invoice.total == attempt.amount
    && reply.details.invoice.status == (if attempt.status == AttemptStatus.Succeeded then InvoiceStatus.Paid else InvoiceStatus.Open)
  }

  /** A row is either a stored rejection, which never names Processing, or belongs to an attempt and holds a
      response exactly when that attempt is settled. */
  predicate KeyRowOk(business: Id, row: KeyRow, attempts: map<Id, Attempt>) {
    match row.attempt
    case None =>
      && row.response.Some?
      && (row.response.value == NotFound()
          || exists status :: row.response.value == BeginPayment.Rejection(status)
                              && status != InvoiceStatus.Processing)
    case Some(a) =>
      && a in attempts
      && attempts[a].business == business
      && attempts[a].invoice == row.fingerprint.invoice
      && (row.response.None? <==> attempts[a].status == AttemptStatus.Pending)
      && (row.response.Some? ==> Answers(row.response.value, attempts[a]))
  }

  ghost predicate HasKey(keys: map<KeyId, KeyRow>, attempt: Id) {
    exists k :: k in keys && keys[k].attempt == Some(attempt)
  }

  ghost predicate KeysOk(attempts: map<Id, Attempt>, keys: map<KeyId, KeyRow>) {
    && (forall k :: k in keys ==> KeyRowOk(k.business, keys[k], attempts))
    && (forall a :: a in attempts ==> HasKey(keys, a))
    && (forall k, l :: k in keys && l in keys && keys[k].attempt.Some? && keys[k].attempt == keys[l].attempt ==> k == l)
  }

  /** A key whose claim is still open is not visible. */
  ghost predicate LocksOk(keys: map<KeyId, KeyRow>, explaining: map<KeyId, Fingerprint>) {
    keys.Keys !! explaining.Keys
  }

  // ----- Network and PSP

  ghost predicate Requested(sends: seq<ChargeRequest>, attempt: Id) {
    exists j :: 0 <= j < |sends| && sends[j].attempt == attempt
  }

  /** At most one request per attempt is ever sent, for its amount, and in time. */
  ghost predicate NetworkOk(
    t: Timing, attempts: map<Id, Attempt>, handlers: map<Id, Handler>, sends: seq<ChargeRequest>)
  {
    && (forall a :: a in handlers ==> a in attempts && (handlers[a].ToSend? ==> !Requested(sends, a)))
    && (forall j :: 0 <= j < |sends| ==>
          && sends[j].attempt in attempts
          && sends[j].amount == attempts[sends[j].attempt].amount
          && sends[j].sentAt <= attempts[sends[j].attempt].createdAt + t.sendDelay)
    && (forall j, k :: 0 <= j < k < |sends| ==> sends[j].attempt != sends[k].attempt)
  }

  ghost predicate ChargesOk(attempts: map<Id, Attempt>, sends: seq<ChargeRequest>, charges: map<Id, Charge>) {
    forall a :: a in charges ==>
      && a in attempts
      && charges[a].amount == attempts[a].amount
      && charges[a].outcome != Settlement.Failed("psp_no_record")
      && Requested(sends, a)
  }

  // ----- Outcomes

  /** The settlement is what the PSP recorded; or the PSP holds nothing and never will. */
  predicate Truthful(t: Timing, attempt: Id, row: Attempt, charges: map<Id, Charge>, settlement: Settlement, now: Time) {
    if attempt in charges then settlement == charges[attempt].outcome
    else settlement == Settlement.Failed("psp_no_record") && Closed(t, row, now)
  }

  function OutcomeOf(row: Attempt): Option<Settlement> {
    match row.status
    case Pending => None
    case Succeeded => if row.pspRef.Some? then Some(Settlement.Succeeded(row.pspRef.value)) else None
    case Failed => if row.failureCode.Some? then Some(Settlement.Failed(row.failureCode.value)) else None
  }

  ghost predicate OutcomesOk(t: Timing, attempts: map<Id, Attempt>, charges: map<Id, Charge>, now: Time) {
    forall a :: a in attempts && attempts[a].status != AttemptStatus.Pending ==>
      OutcomeOf(attempts[a]).Some? && Truthful(t, a, attempts[a], charges, OutcomeOf(attempts[a]).value, now)
  }

  predicate WorkItemOk(t: Timing, work: Work, attempts: map<Id, Attempt>, charges: map<Id, Charge>, now: Time) {
    && work.attempt in attempts
    && (!work.Settling? ==>
          && attempts[work.attempt].createdAt + t.config.FirstLook() <= now
          && 1 <= work.checks <= attempts[work.attempt].reconcileCount)
    && (work.Due? && work.pastGrace ==> PastGrace(attempts[work.attempt], now, t.config.notFoundGrace))
    && (work.Settling? ==> Truthful(t, work.attempt, attempts[work.attempt], charges, work.settlement, now))
  }

  ghost predicate WorkOk(
    t: Timing, attempts: map<Id, Attempt>, charges: map<Id, Charge>, work: multiset<Work>, now: Time)
  {
    forall w :: w in work ==> WorkItemOk(t, w, attempts, charges, now)
  }

  /** No attempt is looked at before its first look is due, and none is put off by more than a minute. */
  predicate ScheduleRow(t: Timing, row: Attempt, now: Time) {
    && row.createdAt <= now
    && (row.reconcileAfter.Some? ==>
          row.createdAt + t.config.FirstLook() <= row.reconcileAfter.value <= now + MAX_BACKOFF)
  }

  ghost predicate ScheduleOk(t: Timing, attempts: map<Id, Attempt>, now: Time) {
    forall a :: a in attempts ==> ScheduleRow(t, attempts[a], now)
  }

  // ----- Events

  ghost function FailedOn(attempts: map<Id, Attempt>, invoice: Id): set<Id> {
    set a | a in attempts && attempts[a].invoice == invoice && attempts[a].status == AttemptStatus.Failed
  }

  ghost function ExpectedPast(invoices: map<Id, Invoice>, attempts: map<Id, Attempt>, invoice: Id): Past {
    if invoice !in invoices then Absent
    else
      var failures := |FailedOn(attempts, invoice)|;
      match invoices[invoice].status
      case Open => Live(failures)
      case Processing => Live(failures)
      case Paid => PaidAfter(failures)
      case Void => VoidedAfter(failures)
  }

  ghost predicate EventsOk(invoices: map<Id, Invoice>, attempts: map<Id, Attempt>, events: seq<Event>) {
    forall i :: Fold(events, i) == ExpectedPast(invoices, attempts, i)
  }

  /** An event belongs to the business of its invoice. */
  ghost predicate EventsOwned(invoices: map<Id, Invoice>, events: seq<Event>) {
    forall j :: 0 <= j < |events| ==>
      events[j].invoice in invoices && events[j].business == invoices[events[j].invoice].business
  }

  // ----- Money

  ghost function PaidTotals(invoices: map<Id, Invoice>): map<Id, int> {
    map i | i in invoices && invoices[i].status == InvoiceStatus.Paid :: invoices[i].total
  }

  /** Pending attempts whose charge the PSP has already recorded as succeeded. */
  ghost function TakenInFlight(attempts: map<Id, Attempt>, charges: map<Id, Charge>): map<Id, int> {
    map a | a in attempts && attempts[a].status == AttemptStatus.Pending
            && a in charges && charges[a].outcome.Succeeded? :: attempts[a].amount
  }

  ghost predicate MoneyOk(invoices: map<Id, Invoice>, attempts: map<Id, Attempt>, charges: map<Id, Charge>) {
    Sum(Taken(charges)) == Sum(PaidTotals(invoices)) + Sum(TakenInFlight(attempts, charges))
  }

  // ----- All of it

  ghost predicate Tables(db: Db) {
    && RowsOk(db.invoices, db.attempts)
    && Agree(db.invoices, db.attempts)
    && KeysOk(db.attempts, db.keys)
    && EventsOk(db.invoices, db.attempts, db.events)
    && EventsOwned(db.invoices, db.events)
  }

  ghost predicate Outside(t: Timing, s: State) {
    && NetworkOk(t, s.db.attempts, s.handlers, s.sends)
    && ChargesOk(s.db.attempts, s.sends, s.charges)
    && OutcomesOk(t, s.db.attempts, s.charges, s.now)
    && WorkOk(t, s.db.attempts, s.charges, s.work, s.now)
    && ScheduleOk(t, s.db.attempts, s.now)
  }

  ghost predicate Inv(t: Timing, s: State) {
    && Tables(s.db)
    && LocksOk(s.db.keys, s.explaining)
    && Outside(t, s)
    && MoneyOk(s.db.invoices, s.db.attempts, s.charges)
  }
}
