/** The payment tables as the service updates them, statement by statement. Each method is one transaction, or one
    statement of it; `now` is the transaction's now(). */
module Database {
  import opened Common
  import opened Schema
  import opened InvoiceState
  import opened Psp
  import opened Sql
  import opened Pagination
  import opened Transactions
  import opened PaymentInvariant
  import opened PaymentPreservation

  datatype TransitionOutcome = Applied(invoice: Invoice) | Rejected(current: InvoiceStatus) | NotFound

  datatype DueAttempt = DueAttempt(id: Id, checks: nat, pastGrace: bool)

  function Ids(due: seq<DueAttempt>): seq<Id> {
    seq(|due|, j requires 0 <= j < |due| => due[j].id)
  }

  lemma LeasingKeepsTables(db: Db, locked: set<Id>, batch: seq<Id>, now: Time, lease: Time)
    requires Tables(db) && IsFirst(DueColumn(db.attempts, locked, now), BATCH_SIZE, batch)
    ensures Tables(db.(attempts := LeaseAll(db.attempts, batch, now, lease)))
  {
    LeasingRebooks(db.attempts, locked, batch, now, lease);
    RebookKeepsTables(db, LeaseAll(db.attempts, batch, now, lease));
  }

  /** What the query returns: due rows that nobody has locked, and all of them if the batch is not full. */
  lemma BatchIsDue(attempts: map<Id, Attempt>, locked: set<Id>, batch: seq<Id>, now: Time)
    requires IsFirst(DueColumn(attempts, locked, now), BATCH_SIZE, batch)
    ensures forall j :: 0 <= j < |batch| ==>
              batch[j] in attempts && batch[j] in batch && IsDue(attempts[batch[j]], now) && batch[j] !in locked
    ensures |batch| < BATCH_SIZE ==> forall a :: a in attempts && IsDue(attempts[a], now) && a !in locked ==> a in batch
  {
    var column := DueColumn(attempts, locked, now);
    if |batch| < BATCH_SIZE {
      AllFetched(column, batch);
      forall a | a in attempts && IsDue(attempts[a], now) && a !in locked ensures a in batch {
        assert a in column;
      }
    }
  }

  /** The unique index on idempotency_keys.payment_attempt_id. */
  ghost predicate UniqueAttempts(keys: map<KeyId, KeyRow>) {
    forall k, l :: k in keys && l in keys && keys[k].attempt.Some? && keys[k].attempt == keys[l].attempt ==> k == l
  }

  class Database {
    var invoices: map<Id, Invoice>
    var attempts: map<Id, Attempt>
    var keys: map<KeyId, KeyRow>
    var events: seq<Event>

    function View(): Db
      reads this
    {
      Db(invoices, attempts, keys, events)
    }

    constructor ()
      ensures View() == Db(map[], map[], map[], []) && Tables(View())
    {
      invoices, attempts, keys, events := map[], map[], map[], [];
      new;
      forall i ensures FailedOn(attempts, i) == {} {}
    }

    // ----- Idempotency keys

    method Reserve(key: KeyId, fingerprint: Fingerprint) returns (existing: Option<KeyRow>)
      modifies this`keys
      ensures existing == if key in old(keys) then Some(old(keys)[key]) else None
      ensures keys == if key in old(keys) then old(keys) else old(keys)[key := KeyRow(fingerprint, None, None)]
    {
      if key in keys {
        return Some(keys[key]);
      }
      keys := keys[key := KeyRow(fingerprint, None, None)];
      existing := None;
    }

    method AttachAttempt(key: KeyId, attempt: Id)
      modifies this`keys
      ensures keys == if key in old(keys) then old(keys)[key := old(keys)[key].(attempt := Some(attempt))] else old(keys)
    {
      if key in keys {
        keys := keys[key := keys[key].(attempt := Some(attempt))];
      }
    }

    method Complete(key: KeyId, reply: Reply)
      modifies this`keys
      ensures keys == if key in old(keys) then old(keys)[key := old(keys)[key].(response := Some(reply))] else old(keys)
    {
      if key in keys {
        keys := keys[key := keys[key].(response := Some(reply))];
      }
    }

    method CompleteForAttempt(attempt: Id, reply: Reply)
      modifies this`keys
      ensures keys == CompletedFor(old(keys), attempt, reply)
    {
      keys := map k | k in keys ::
        if keys[k].attempt == Some(attempt) && keys[k].response.None? then keys[k].(response := Some(reply)) else keys[k];
    }

    method ResponseForAttempt(attempt: Id) returns (reply: Option<Reply>)
      requires UniqueAttempts(keys)
      ensures reply == StoredFor(keys, attempt)
    {
      if k :| k in keys && keys[k].attempt == Some(attempt) {
        reply := keys[k].response;
      } else {
        reply := None;
      }
    }

    // ----- Invoices

    method ApplyTransition(business: Id, invoice: Id, transition: Transition, now: Time)
      returns (outcome: TransitionOutcome)
      modifies this`invoices
      ensures outcome.Applied? <==> CasMatches(old(View()), business, invoice, transition)
      ensures outcome.Applied? ==>
                && outcome.invoice == transition.Move(old(invoices)[invoice], now)
                && invoices == old(invoices)[invoice := outcome.invoice]
      ensures !outcome.Applied? ==>
                && invoices == old(invoices)
                && outcome == match Find(View(), business, invoice)
                              case None => TransitionOutcome.NotFound
                              case Some(row) => TransitionOutcome.Rejected(row.status)
    {
      if invoice in invoices && invoices[invoice].business == business && invoices[invoice].status == transition.From() {
        var row := transition.Move(invoices[invoice], now);
        invoices := invoices[invoice := row];
        return Applied(row);
      }
      if invoice in invoices && invoices[invoice].business == business {
        outcome := TransitionOutcome.Rejected(invoices[invoice].status);
      } else {
        outcome := TransitionOutcome.NotFound;
      }
    }

    method CreateInvoice(invoice: Id, business: Id, total: nat)
      requires invoice !in invoices && total > 0
      modifies this
      ensures View() == Created(old(View()), invoice, business, total)
      ensures old(Tables(View())) ==> Tables(View())
    {
      if Tables(View()) { CreateKeepsTables(View(), invoice, business, total); }
      invoices := invoices[invoice := Invoice(business, total, InvoiceStatus.Open, None, None)];
      events := events + [Event(business, InvoiceCreated, invoice)];
    }

    method VoidInvoice(business: Id, invoice: Id, now: Time) returns (result: Result<Invoice, Reply>)
      modifies this
      ensures (View(), result) == Voided(old(View()), business, invoice, now)
      ensures old(Tables(View())) ==> Tables(View())
    {
      ghost var before := View();
      if Tables(before) { VoidKeepsTables(before, business, invoice, now); }
      var outcome := ApplyTransition(business, invoice, Transition.VoidInvoice, now);
      match outcome {
        case Applied(row) =>
          events := events + [Event(business, InvoiceVoided, invoice)];
          result := Ok(row);
          assert View() == Voided(before, business, invoice, now).0;
        case Rejected(current) =>
          result := Err(Transition.VoidInvoice.Rejection(current));
          assert View() == before;
        case NotFound =>
          result := Err(Schema.NotFound());
          assert View() == before;
      }
    }

    // ----- POST /pay

    method ClaimInvoice(key: KeyId, fingerprint: Fingerprint, attempt: Id, now: Time, firstLook: Time)
      returns (result: ClaimResult)
      requires attempt !in attempts
      modifies this
      ensures (View(), result) == Claim(old(View()), key, fingerprint, attempt, now, firstLook)
      ensures old(Tables(View())) ==> Tables(View())
    {
      hide Tables;
      ghost var before := View();
      if Tables(before) { ClaimTransactionKeepsTables(before, key, fingerprint, attempt, now, firstLook); }
      var savepoint := keys;
      var existing := Reserve(key, fingerprint);
      if existing.Some? {
        return Resolve(existing.value, fingerprint);
      }
      var outcome := ApplyTransition(key.business, fingerprint.invoice, BeginPayment, now);
      match outcome {
        case Applied(row) =>
          attempts := attempts[attempt := NewAttempt(fingerprint.invoice, row, now, firstLook)];
          AttachAttempt(key, attempt);
          result := Claimed(attempt, row.total);
          assert View() == ApplyClaim(before, key, fingerprint, attempt, now, firstLook);
        case Rejected(current) =>
          var reply := BeginPayment.Rejection(current);
          if current == InvoiceStatus.Processing {
            keys := savepoint;
            assert View() == before;
            return Refused(reply);
          }
          Complete(key, reply);
          result := ClaimResult.Rejected(reply);
          assert View() == Explained(before, key, fingerprint).0;
        case NotFound =>
          var reply := Schema.NotFound();
          Complete(key, reply);
          result := ClaimResult.Rejected(reply);
          assert View() == Explained(before, key, fingerprint).0;
      }
    }

    method SettleAttempt(attempt: Id, settlement: Settlement, now: Time) returns (result: Result<Reply, Reply>)
      requires UniqueAttempts(keys)
      modifies this
      ensures (View(), result) == Settle(old(View()), attempt, settlement, now)
      ensures old(Tables(View())) ==> Tables(View())
    {
      ghost var before := View();
      if Tables(before) { SettleKeepsTables(before, attempt, settlement, now); }
      if !(attempt in attempts && attempts[attempt].status == AttemptStatus.Pending) {
        var stored := ResponseForAttempt(attempt);
        return if stored.Some? then Ok(stored.value) else Err(Internal());
      }
      var savepoint := attempts;
      var row := SettledRow(attempts[attempt], settlement, now);
      attempts := attempts[attempt := row];
      var outcome := ApplyTransition(row.business, row.invoice, SettleTransition(settlement), now);
      match outcome {
        case Applied(invoice) =>
          events := events + [Event(row.business, SettleEvent(settlement), row.invoice)];
          var reply := AttemptReply(invoice, row);
          CompleteForAttempt(attempt, reply);
          result := Ok(reply);
          assert View() == ApplySettlement(before, attempt, settlement, now).0;
        case Rejected(_) =>
          attempts := savepoint;
          result := Err(Internal());
        case NotFound =>
          attempts := savepoint;
          result := Err(Internal());
      }
    }

    // ----- The reconciler

    /** Leases the first sixteen due attempts that nobody has locked. Each is taken up once, and no other row is
        touched; a batch that is not full leaves only locked rows due. */
    method ClaimDue(locked: set<Id>, now: Time, lease: Time, grace: Time) returns (due: seq<DueAttempt>)
      modifies this`attempts
      ensures IsFirst(DueColumn(old(attempts), locked, now), BATCH_SIZE, Ids(due))
      ensures attempts == LeaseAll(old(attempts), Ids(due), now, lease)
      ensures forall j :: 0 <= j < |due| ==>
                && due[j].id in attempts
                && due[j].id !in locked
                && due[j].checks == attempts[due[j].id].reconcileCount
                && due[j].pastGrace == PastGrace(attempts[due[j].id], now, grace)
      ensures |due| < BATCH_SIZE && lease > 0 ==> forall a :: a in attempts && IsDue(attempts[a], now) ==> a in locked
      ensures old(Tables(View())) ==> Tables(View())
    {
      hide Tables;
      ghost var before := View();
      var column := DueColumn(attempts, locked, now);
      var rows := OrderByLimit(column, BATCH_SIZE);
      BatchIsDue(attempts, locked, rows, now);
      if Tables(before) { LeasingKeepsTables(before, locked, rows, now, lease); }
      var leased := LeaseAll(attempts, rows, now, lease);
      attempts := leased;
      due := seq(|rows|, j requires 0 <= j < |rows| && rows[j] in leased =>
        DueAttempt(rows[j], leased[rows[j]].reconcileCount, PastGrace(leased[rows[j]], now, grace)));
      assert Ids(due) == rows;
      assert View() == before.(attempts := leased);
    }

    method Reschedule(attempt: Id, checks: nat, now: Time)
      modifies this`attempts
      ensures View() == Rescheduled(old(View()), attempt, checks, now)
      ensures old(Tables(View())) ==> Tables(View())
      ensures Settleable(View(), attempt) ==> now < attempts[attempt].reconcileAfter.value <= now + MAX_BACKOFF
    {
      hide Tables;
      if attempt in attempts && attempts[attempt].status == AttemptStatus.Pending {
        var row := attempts[attempt].(reconcileAfter := Some(now + Backoff(checks)));
        if Tables(View()) { RebookKeepsTables(View(), attempts[attempt := row]); }
        attempts := attempts[attempt := row];
      }
    }
  }
}
