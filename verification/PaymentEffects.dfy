/** What each transaction on the payment tables does, column by column and case by case, as its SQL reads. */
module PaymentEffects {
  import opened Common
  import opened Config
  import opened Sql
  import opened Schema
  import opened InvoiceState
  import opened Psp
  import opened Transactions
  import opened PaymentProtocol
  import opened PaymentInvariant
  import opened PaymentPreservation
  import Pagination

  /** The first use of a key, by the caller's invoice. Missing, or another business's: a 404 is stored. Open: it is
      claimed for its total. Processing: a 409, and nothing is stored. Paid or void: a 409 is stored. */
  lemma FirstUseByStatus(db: Db, key: KeyId, fingerprint: Fingerprint, attempt: Id, started: Time, firstLook: Time)
    requires key !in db.keys
    ensures var (db', result) := Claim(db, key, fingerprint, attempt, started, firstLook);
            var i := fingerprint.invoice;
            if i !in db.invoices || db.invoices[i].business != key.business then
              var reply := Reply(404, Some("resource_not_found"), NoDetails);
              result == ClaimResult.Rejected(reply) && db' == db.(keys := db.keys[key := KeyRow(fingerprint, None, Some(reply))])
            else match db.invoices[i].status
              case Open =>
                && result == Claimed(attempt, db.invoices[i].total)
                && db'.invoices == db.invoices[i := db.invoices[i].(status := InvoiceStatus.Processing)]
                && db'.attempts == db.attempts[attempt :=
                     Attempt(i, key.business, db.invoices[i].total, AttemptStatus.Pending, None, None, started, None,
                             Some(started + firstLook), 0)]
                && db'.keys == db.keys[key := KeyRow(fingerprint, Some(attempt), None)]
                && db'.events == db.events
              case Processing =>
                && result == Refused(Reply(409, Some("payment_in_progress"), CurrentStatus(InvoiceStatus.Processing)))
                && db' == db
              case Paid =>
                var reply := Reply(409, Some("invoice_already_paid"), CurrentStatus(InvoiceStatus.Paid));
                result == ClaimResult.Rejected(reply) && db' == db.(keys := db.keys[key := KeyRow(fingerprint, None, Some(reply))])
              case Void =>
                var reply := Reply(409, Some("invalid_state_transition"), CurrentStatus(InvoiceStatus.Void));
                result == ClaimResult.Rejected(reply) && db' == db.(keys := db.keys[key := KeyRow(fingerprint, None, Some(reply))])
  {
  }

  /** The two steps in which the protocol takes a claim whose compare-and-set fails are, uninterrupted, the claim. */
  lemma ClaimIsTheTransaction(t: Timing, s: State, key: KeyId, fingerprint: Fingerprint, attempt: Id, started: Time)
    requires Enabled(t, s, ClaimInvoice(key, fingerprint, attempt, started)) && key !in s.explaining
    ensures var claimed := Next(t, s, ClaimInvoice(key, fingerprint, attempt, started));
            var done := if key in claimed.explaining then Next(t, claimed, Explain(key)) else claimed;
            && done.db == Claim(s.db, key, fingerprint, attempt, started, t.config.FirstLook()).0
            && done.explaining == s.explaining
            && done == s.(db := done.db, handlers := done.handlers)
            && (done.handlers != s.handlers ==>
                  Claim(s.db, key, fingerprint, attempt, started, t.config.FirstLook()).1.Claimed?)
  {
    var claimed := Next(t, s, ClaimInvoice(key, fingerprint, attempt, started));
    if key in claimed.explaining {
      assert claimed.explaining - {key} == s.explaining;
    }
  }

  /** What an explaining read of the invoice stores, if anything: a 404 if the caller has no such invoice, a 409 that
      names the status unless that is Processing. */
  function ReadReply(db: Db, business: Id, invoice: Id): Option<Reply> {
    if invoice !in db.invoices || db.invoices[invoice].business != business then
      Some(Reply(404, Some("resource_not_found"), NoDetails))
    else match db.invoices[invoice].status
      case Open => Some(Reply(409, Some("invalid_state_transition"), CurrentStatus(InvoiceStatus.Open)))
      case Processing => None
      case Paid => Some(Reply(409, Some("invoice_already_paid"), CurrentStatus(InvoiceStatus.Paid)))
      case Void => Some(Reply(409, Some("invalid_state_transition"), CurrentStatus(InvoiceStatus.Void)))
  }

  /** The second statement of a claim whose compare-and-set has failed, whatever was committed in between. */
  lemma ExplainByStatus(t: Timing, s: State, key: KeyId)
    requires Enabled(t, s, Explain(key))
    ensures var fingerprint := s.explaining[key];
            var stored := ReadReply(s.db, key.business, fingerprint.invoice);
            Next(t, s, Explain(key)) == s.(
              explaining := s.explaining - {key},
              db := if stored.None? then s.db else s.db.(keys := s.db.keys[key := KeyRow(fingerprint, None, stored)]))
  {
  }

  /** A settlement of a pending attempt writes the outcome and the moment to the attempt, pays or reopens its invoice,
      appends one event and stores the reply it returns. One of a settled attempt changes nothing and returns what is
      stored. */
  lemma SettleByCases(db: Db, attempt: Id, settlement: Settlement, now: Time)
    requires Tables(db) && attempt in db.attempts
    ensures db.attempts[attempt].invoice in db.invoices
    ensures var (db', result) := Settle(db, attempt, settlement, now);
            var row := db.attempts[attempt];
            var i := row.invoice;
            match row.status
            case Pending =>
              var (paid, settled, event, status, code) :=
                match settlement
                case Succeeded(pspRef) =>
                  (db.invoices[i].(status := InvoiceStatus.Paid, paidAt := Some(now)),
                   row.(status := AttemptStatus.Succeeded, pspRef := Some(pspRef), settledAt := Some(now), reconcileAfter := None),
                   InvoicePaid, 200, None)
                case Failed(failure) =>
                  (db.invoices[i].(status := InvoiceStatus.Open),
                   row.(status := AttemptStatus.Failed, failureCode := Some(failure), settledAt := Some(now), reconcileAfter := None),
                   InvoicePaymentFailed, 402, Some(failure));
              && result == Ok(Reply(status, code, Resources(paid, settled)))
              && db'.invoices == db.invoices[i := paid]
              && db'.attempts == db.attempts[attempt := settled]
              && db'.events == db.events + [Event(row.business, event, i)]
              && db'.keys.Keys == db.keys.Keys
              && forall k :: k in db.keys ==>
                   db'.keys[k] == if db.keys[k].attempt == Some(attempt) then db.keys[k].(response := Some(result.value)) else db.keys[k]
            case Succeeded => db' == db && StoredFor(db.keys, attempt) == Some(result.value)
            case Failed => db' == db && StoredFor(db.keys, attempt) == Some(result.value)
  {
    if db.attempts[attempt].status == AttemptStatus.Pending {
      SettleApplies(db, attempt, settlement);
      PendingUnanswered(db, attempt);
    } else {
      SettledAnswered(db, attempt);
    }
    AttemptHasInvoice(db, attempt);
    hide Tables, StoredFor;
  }

  lemma AttemptHasInvoice(db: Db, attempt: Id)
    requires RowsOk(db.invoices, db.attempts) && attempt in db.attempts
    ensures db.attempts[attempt].invoice in db.invoices && AttemptRow(db.attempts[attempt])
  {
  }

  lemma PendingUnanswered(db: Db, attempt: Id)
    requires KeysOk(db.attempts, db.keys) && Settleable(db, attempt)
    ensures forall k :: k in db.keys && db.keys[k].attempt == Some(attempt) ==> db.keys[k].response.None?
  {
    forall k | k in db.keys && db.keys[k].attempt == Some(attempt) ensures db.keys[k].response.None? {
      assert KeyRowOk(k.business, db.keys[k], db.attempts);
    }
  }

  lemma SettledAnswered(db: Db, attempt: Id)
    requires KeysOk(db.attempts, db.keys) && attempt in db.attempts && db.attempts[attempt].status != AttemptStatus.Pending
    ensures StoredFor(db.keys, attempt).Some?
  {
    assert HasKey(db.keys, attempt);
    var k :| k in db.keys && db.keys[k].attempt == Some(attempt);
    assert KeyRowOk(k.business, db.keys[k], db.attempts);
  }

  /** Voiding, by the caller's invoice. */
  lemma VoidByStatus(db: Db, business: Id, invoice: Id, now: Time)
    ensures var (db', result) := Voided(db, business, invoice, now);
            if invoice !in db.invoices || db.invoices[invoice].business != business then
              db' == db && result == Err(Reply(404, Some("resource_not_found"), NoDetails))
            else match db.invoices[invoice].status
              case Open =>
                var row := db.invoices[invoice].(status := InvoiceStatus.Void, voidedAt := Some(now));
                && result == Ok(row)
                && db' == db.(invoices := db.invoices[invoice := row],
                              events := db.events + [Event(business, InvoiceVoided, invoice)])
              case Processing =>
                db' == db && result == Err(Reply(409, Some("payment_in_progress"), CurrentStatus(InvoiceStatus.Processing)))
              case Paid =>
                db' == db && result == Err(Reply(409, Some("invalid_state_transition"), CurrentStatus(InvoiceStatus.Paid)))
              case Void =>
                db' == db && result == Err(Reply(409, Some("invalid_state_transition"), CurrentStatus(InvoiceStatus.Void)))
  {
  }

  /** A used key: what it answers is read off its row. */
  lemma RepeatByRow(db: Db, key: KeyId, fingerprint: Fingerprint, attempt: Id, started: Time, firstLook: Time)
    requires key in db.keys
    ensures var (db', result) := Claim(db, key, fingerprint, attempt, started, firstLook);
            && db' == db
            && result == (if db.keys[key].fingerprint != fingerprint then
                            Refused(Reply(422, Some("idempotency_key_reused"), NoDetails))
                          else if db.keys[key].response.Some? then Replay(db.keys[key].response.value)
                          else if db.keys[key].attempt.Some? then AwaitingSettlement(db.keys[key].attempt.value)
                          else Refused(Reply(409, Some("idempotency_key_in_use"), NoDetails)))
  {
  }

  /** 1, 2, 4, 8, 16, 32 seconds, then a minute. */
  predicate BackoffAfter(checks: nat, delay: Time) {
    delay == (if checks <= 1 then 1 else if checks == 2 then 2 else if checks == 3 then 4 else if checks == 4 then 8
              else if checks == 5 then 16 else if checks == 6 then 32 else 60) * SECOND
  }

  predicate Free(attempts: map<Id, Attempt>, locked: set<Id>, now: Time, a: Id) {
    && a in attempts && a !in locked
    && attempts[a].status == AttemptStatus.Pending
    && attempts[a].reconcileAfter.Some? && attempts[a].reconcileAfter.value <= now
  }

  /** The rows a pass takes were pending, due and free, at most sixteen of them and none twice; and if any such row is
      left behind, then the pass took sixteen that were due no later. */
  lemma PassTakesInOrder(attempts: map<Id, Attempt>, locked: set<Id>, batch: seq<Id>, now: Time)
    requires IsFirst(DueColumn(attempts, locked, now), BATCH_SIZE, batch)
    ensures |batch| <= 16
    ensures forall j, k :: 0 <= j < k < |batch| ==> batch[j] != batch[k]
    ensures forall a :: a in batch ==> Free(attempts, locked, now, a)
    ensures forall a, b :: Free(attempts, locked, now, a) && a !in batch && b in batch ==>
              |batch| == 16 && attempts[b].reconcileAfter.value <= attempts[a].reconcileAfter.value
    ensures (exists a :: Free(attempts, locked, now, a)) ==> batch != []
  {
    var column := DueColumn(attempts, locked, now);
    forall a ensures a in column <==> Free(attempts, locked, now, a) {}
    forall a | a in batch ensures a in column {
      var j :| 0 <= j < |batch| && batch[j] == a;
      assert batch[j] in column;
    }
    forall a, b | a in column && a !in batch && b in batch ensures |batch| == 16 && column[b] <= column[a] {
      LeftBehind(column, batch, a);
      var j :| 0 <= j < |batch| && batch[j] == b;
      assert column[batch[j]] <= column[a];
    }
  }

  /** Each row taken is put off thirty seconds, has its check counted, and is handed on with that count and whether its
      grace window is over; no other row is touched. */
  lemma PassWrites(t: Timing, s: State, batch: seq<Id>, locked: set<Id>) returns (handed: seq<Work>)
    requires Enabled(t, s, ClaimDue(batch, locked))
    ensures var next := Next(t, s, ClaimDue(batch, locked));
            && next.(db := s.db, work := s.work) == s
            && next.db == s.db.(attempts := next.db.attempts)
            && next.work == s.work + multiset(handed)
            && next.db.attempts.Keys == s.db.attempts.Keys
            && (forall a :: a in s.db.attempts ==>
                  next.db.attempts[a] == if a !in batch then s.db.attempts[a] else s.db.attempts[a].(
                    reconcileAfter := Some(s.now + 30 * SECOND), reconcileCount := s.db.attempts[a].reconcileCount + 1))
    ensures |handed| == |batch|
    ensures forall j :: 0 <= j < |batch| ==>
              && batch[j] in s.db.attempts
              && handed[j] == Due(batch[j], s.db.attempts[batch[j]].reconcileCount + 1,
                                  s.db.attempts[batch[j]].createdAt + t.config.notFoundGrace < s.now)
  {
    PassNext(t, s, batch, locked);
    BatchIsDue(s, batch, locked);
    LeaseWrites(s.db.attempts, batch, s.now);
    HandedOn(s.db.attempts, batch, s.now, t.config.notFoundGrace);
    handed := DueWork(LeaseAll(s.db.attempts, batch, s.now, RECONCILE_LEASE), batch, s.now, t.config.notFoundGrace);
    hide Enabled, Next, LeaseAll, DueWork;
  }

  lemma PassNext(t: Timing, s: State, batch: seq<Id>, locked: set<Id>)
    requires Enabled(t, s, ClaimDue(batch, locked))
    ensures forall j :: 0 <= j < |batch| ==> batch[j] in s.db.attempts
    ensures var leased := LeaseAll(s.db.attempts, batch, s.now, RECONCILE_LEASE);
            && Next(t, s, ClaimDue(batch, locked)).db == s.db.(attempts := leased)
            && Next(t, s, ClaimDue(batch, locked)).work
               == s.work + multiset(DueWork(leased, batch, s.now, t.config.notFoundGrace))
            && Next(t, s, ClaimDue(batch, locked)).(db := s.db, work := s.work) == s
  {
  }

  lemma BatchIsDue(s: State, batch: seq<Id>, locked: set<Id>)
    requires IsFirst(DueColumn(s.db.attempts, locked, s.now), BATCH_SIZE, batch)
    ensures forall j :: 0 <= j < |batch| ==> batch[j] in s.db.attempts
  {
  }

  lemma LeaseWrites(attempts: map<Id, Attempt>, batch: seq<Id>, now: Time)
    ensures var leased := LeaseAll(attempts, batch, now, RECONCILE_LEASE);
            && leased.Keys == attempts.Keys
            && forall a :: a in attempts ==>
                 leased[a] == if a !in batch then attempts[a] else attempts[a].(
                   reconcileAfter := Some(now + 30 * SECOND), reconcileCount := attempts[a].reconcileCount + 1)
  {
  }

  lemma HandedOn(attempts: map<Id, Attempt>, batch: seq<Id>, now: Time, grace: Time)
    requires forall j :: 0 <= j < |batch| ==> batch[j] in attempts
    ensures var handed := DueWork(LeaseAll(attempts, batch, now, RECONCILE_LEASE), batch, now, grace);
            && |handed| == |batch|
            && forall j :: 0 <= j < |batch| ==>
                 handed[j] == Due(batch[j], attempts[batch[j]].reconcileCount + 1, attempts[batch[j]].createdAt + grace < now)
  {
    assert forall j :: 0 <= j < |batch| ==> batch[j] in batch;
  }

  lemma LeftBehind(column: map<Id, int>, batch: seq<Id>, a: Id)
    requires IsFirst(column, BATCH_SIZE, batch) && a in column && a !in batch
    ensures |batch| == 16
  {
    if |column| <= BATCH_SIZE {
      Pagination.AllFetched(column, batch);
      assert false;
    }
  }

  /** What a handler goes on to do, by the reply to its charge: settle the outcome a 200 carries; otherwise leave the
      attempt pending. */
  lemma ChargeByReply(t: Timing, s: State, attempt: Id, reply: HttpReply)
    requires Enabled(t, s, HandlerHears(attempt, reply))
    ensures var next := Next(t, s, HandlerHears(attempt, reply));
            && next.(handlers := s.handlers, work := s.work) == s
            && next.handlers == s.handlers - {attempt}
            && next.work == (if reply.Http? && reply.status == 200 && reply.body.Some? && reply.body.value.Outcome? then
                               s.work + multiset{Settling(attempt, reply.body.value.settlement)}
                             else s.work)
  {
  }

  /** A claim that takes its invoice leaves one charge to send, with the caller's card; sending it asks the PSP for the
      attempt's amount. */
  lemma ClaimThenSend(t: Timing, s: State, key: KeyId, fingerprint: Fingerprint, attempt: Id, started: Time)
    requires Enabled(t, s, ClaimInvoice(key, fingerprint, attempt, started))
    requires Claim(s.db, key, fingerprint, attempt, started, t.config.FirstLook()).1.Claimed?
    ensures var amount := Claim(s.db, key, fingerprint, attempt, started, t.config.FirstLook()).1.amount;
            var claimed := Next(t, s, ClaimInvoice(key, fingerprint, attempt, started));
            && claimed.handlers == s.handlers[attempt := ToSend(fingerprint.cardToken)]
            && (Enabled(t, claimed, Send(attempt)) <==> s.now <= started + t.sendDelay)
            && (Enabled(t, claimed, Send(attempt)) ==>
                  Next(t, claimed, Send(attempt)).sends ==
                    s.sends + [ChargeRequest(attempt, amount, fingerprint.cardToken, s.now)])
  {
  }

  /** What a worker goes on to do, by the reply to its lookup: settle the outcome a 200 carries; fail an attempt past its
      grace window on a 404; otherwise reschedule, with the count of this check. */
  lemma LookByReply(due: Work, reply: HttpReply)
    requires due.Due?
    ensures AfterLook(due, ReadLookup(reply)) ==
            if reply.Http? && reply.status == 404 && due.pastGrace then
              Settling(due.attempt, Settlement.Failed("psp_no_record"))
            else if reply.Http? && reply.status == 200 && reply.body.Some? && reply.body.value.Outcome? then
              Settling(due.attempt, reply.body.value.settlement)
            else Rescheduling(due.attempt, due.checks)
  {
  }

  /** Rescheduling after a given check puts a pending attempt off by the backoff of that check, and changes nothing
      else; a settled one it leaves alone. */
  lemma RescheduleByCases(db: Db, attempt: Id, checks: nat, now: Time)
    ensures var db' := Rescheduled(db, attempt, checks, now);
            if attempt in db.attempts && db.attempts[attempt].status == AttemptStatus.Pending then
              exists delay :: BackoffAfter(checks, delay)
                && db' == db.(attempts := db.attempts[attempt := db.attempts[attempt].(reconcileAfter := Some(now + delay))])
            else db' == db
  {
    assert BackoffAfter(checks, Backoff(checks)) by {
      PowersOfTwo();
    }
  }
}
