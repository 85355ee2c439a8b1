/** Every step of the payment protocol keeps the invariant. */
module PaymentPreservation {
  import opened Common
  import opened Config
  import opened Sql
  import opened Schema
  import opened InvoiceState
  import opened Psp
  import opened Transactions
  import opened PaymentProtocol
  import opened PaymentInvariant
  import opened History

  // ----- Bookkeeping updates: only reconcileAfter and reconcileCount of one pending attempt change

  predicate Rebooked(row: Attempt, row': Attempt) {
    && row.status == AttemptStatus.Pending
    && row'.reconcileAfter.Some?
    && row'.reconcileCount >= row.reconcileCount
    && row' == row.(reconcileAfter := row'.reconcileAfter, reconcileCount := row'.reconcileCount)
  }

  /** The invoice-attempt agreement reads nothing of an attempt but its invoice and its status. */
  lemma AgreeReadsStatusOnly(invoices: map<Id, Invoice>, attempts: map<Id, Attempt>, attempts': map<Id, Attempt>)
    requires Agree(invoices, attempts) && attempts'.Keys == attempts.Keys
    requires forall a :: a in attempts ==>
               attempts'[a].invoice == attempts[a].invoice && attempts'[a].status == attempts[a].status
    ensures Agree(invoices, attempts')
  {
    forall i, status: AttemptStatus | HasAttempt(attempts, i, status)
      ensures HasAttempt(attempts', i, status)
    {
      var a :| a in attempts && attempts[a].invoice == i && attempts[a].status == status;
      assert a in attempts' && attempts'[a].invoice == i && attempts'[a].status == status;
    }
  }

  ghost predicate OnlyRebooked(attempts: map<Id, Attempt>, attempts': map<Id, Attempt>) {
    && attempts'.Keys == attempts.Keys
    && forall a :: a in attempts ==> attempts'[a] == attempts[a] || Rebooked(attempts[a], attempts'[a])
  }

  /** A batch of one: every other due row is locked. */
  lemma LeasesOne(attempts: map<Id, Attempt>, locked: set<Id>, a: Id, now: Time, lease: Time, grace: Time)
    requires a in attempts && IsDue(attempts[a], now) && a !in locked
    requires forall b :: b in attempts && b != a ==> b in locked
    ensures IsFirst(DueColumn(attempts, locked, now), BATCH_SIZE, [a])
    ensures LeaseAll(attempts, [a], now, lease) == attempts[a := Leased(attempts[a], now, lease)]
    ensures var row := Leased(attempts[a], now, lease);
            multiset(DueWork(LeaseAll(attempts, [a], now, lease), [a], now, grace))
              == multiset{Due(a, row.reconcileCount, PastGrace(row, now, grace))}
  {
    assert DueColumn(attempts, locked, now) == map[a := attempts[a].reconcileAfter.value];
    assert DueWork(LeaseAll(attempts, [a], now, lease), [a], now, grace)
      == [Due(a, Leased(attempts[a], now, lease).reconcileCount, PastGrace(Leased(attempts[a], now, lease), now, grace))];
  }

  lemma RebookKeepsRows(db: Db, attempts: map<Id, Attempt>)
    requires RowsOk(db.invoices, db.attempts) && KeysOk(db.attempts, db.keys) && OnlyRebooked(db.attempts, attempts)
    ensures RowsOk(db.invoices, attempts) && KeysOk(attempts, db.keys)
  {
    forall k | k in db.keys ensures KeyRowOk(k.business, db.keys[k], attempts) {
      assert KeyRowOk(k.business, db.keys[k], db.attempts);
    }
  }

  lemma RebookKeepsEvents(db: Db, attempts: map<Id, Attempt>)
    requires EventsOk(db.invoices, db.attempts, db.events) && OnlyRebooked(db.attempts, attempts)
    ensures EventsOk(db.invoices, attempts, db.events)
  {
    forall i ensures FailedOn(attempts, i) == FailedOn(db.attempts, i) {}
  }

  lemma RebookKeepsTables(db: Db, attempts: map<Id, Attempt>)
    requires Tables(db) && OnlyRebooked(db.attempts, attempts)
    ensures Tables(db.(attempts := attempts))
  {
    AgreeReadsStatusOnly(db.invoices, db.attempts, attempts);
    RebookKeepsRows(db, attempts);
    RebookKeepsEvents(db, attempts);
  }

  lemma RebookKeepsWork(t: Timing, s: State, attempts: map<Id, Attempt>)
    requires WorkOk(t, s.db.attempts, s.charges, s.work, s.now) && OnlyRebooked(s.db.attempts, attempts)
    ensures WorkOk(t, attempts, s.charges, s.work, s.now)
  {
    forall w | w in s.work ensures WorkItemOk(t, w, attempts, s.charges, s.now) {
      assert WorkItemOk(t, w, s.db.attempts, s.charges, s.now);
    }
  }

  lemma RebookKeepsOutside(t: Timing, s: State, attempts: map<Id, Attempt>)
    requires Outside(t, s) && OnlyRebooked(s.db.attempts, attempts) && ScheduleOk(t, attempts, s.now)
    ensures Outside(t, s.(db := s.db.(attempts := attempts)))
  {
    RebookKeepsWork(t, s, attempts);
  }

  lemma RebookKeepsMoney(s: State, attempts: map<Id, Attempt>)
    requires MoneyOk(s.db.invoices, s.db.attempts, s.charges) && OnlyRebooked(s.db.attempts, attempts)
    ensures MoneyOk(s.db.invoices, attempts, s.charges)
  {
    assert TakenInFlight(attempts, s.charges) == TakenInFlight(s.db.attempts, s.charges);
  }

  /** A batch that was due is leased, and nothing else happens to it. */
  lemma LeasingRebooks(attempts: map<Id, Attempt>, locked: set<Id>, batch: seq<Id>, now: Time, lease: Time)
    requires IsFirst(DueColumn(attempts, locked, now), BATCH_SIZE, batch)
    ensures forall a :: a in batch ==> a in attempts && IsDue(attempts[a], now) && a !in locked
    ensures OnlyRebooked(attempts, LeaseAll(attempts, batch, now, lease))
  {
    forall a | a in batch ensures a in DueColumn(attempts, locked, now) {
      var j :| 0 <= j < |batch| && batch[j] == a;
      assert batch[j] in DueColumn(attempts, locked, now);
    }
  }

  /** One appended event accounts for a change to one invoice. */
  lemma AppendKeepsEvents(db: Db, invoices: map<Id, Invoice>, attempts: map<Id, Attempt>, event: Event)
    requires EventsOk(db.invoices, db.attempts, db.events)
    requires forall i :: i != event.invoice ==> ExpectedPast(invoices, attempts, i) == ExpectedPast(db.invoices, db.attempts, i)
    requires ExpectedPast(invoices, attempts, event.invoice) ==
             Advance(ExpectedPast(db.invoices, db.attempts, event.invoice), event.kind)
    ensures EventsOk(invoices, attempts, db.events + [event])
  {
    forall i ensures Fold(db.events + [event], i) == ExpectedPast(invoices, attempts, i) {
      FoldAppend(db.events, event, i);
    }
  }

  /** Invoices keep their business, and an appended event takes its invoice's. */
  lemma AppendKeepsOwned(invoices: map<Id, Invoice>, invoices': map<Id, Invoice>, events: seq<Event>, more: seq<Event>)
    requires EventsOwned(invoices, events) && EventsOwned(invoices', more)
    requires forall i :: i in invoices ==> i in invoices' && invoices'[i].business == invoices[i].business
    ensures EventsOwned(invoices', events + more)
  {
  }

  // ----- Creating and voiding

  lemma CreateKeepsTables(db: Db, invoice: Id, business: Id, total: nat)
    requires Tables(db) && invoice !in db.invoices && total > 0
    ensures Tables(Created(db, invoice, business, total))
  {
    var row := Invoice(business, total, InvoiceStatus.Open, None, None);
    CreateKeepsAgreement(db.invoices, db.attempts, invoice, row);
    CreateKeepsEvents(db, invoice, row);
    AppendKeepsOwned(db.invoices, db.invoices[invoice := row], db.events, [Event(business, InvoiceCreated, invoice)]);
  }

  lemma CreateKeepsAgreement(invoices: map<Id, Invoice>, attempts: map<Id, Attempt>, invoice: Id, row: Invoice)
    requires RowsOk(invoices, attempts) && Agree(invoices, attempts) && invoice !in invoices
    requires InvoiceRow(row) && row.status == InvoiceStatus.Open
    ensures RowsOk(invoices[invoice := row], attempts) && Agree(invoices[invoice := row], attempts)
  {
  }

  lemma CreateKeepsEvents(db: Db, invoice: Id, row: Invoice)
    requires RowsOk(db.invoices, db.attempts) && EventsOk(db.invoices, db.attempts, db.events)
    requires invoice !in db.invoices && row.status == InvoiceStatus.Open
    ensures EventsOk(db.invoices[invoice := row], db.attempts, db.events + [Event(row.business, InvoiceCreated, invoice)])
  {
    assert FailedOn(db.attempts, invoice) == {};
    AppendKeepsEvents(db, db.invoices[invoice := row], db.attempts, Event(row.business, InvoiceCreated, invoice));
  }

  lemma VoidKeepsEvents(db: Db, business: Id, invoice: Id, now: Time)
    requires EventsOk(db.invoices, db.attempts, db.events) && CasMatches(db, business, invoice, VoidInvoice)
    ensures var next := Voided(db, business, invoice, now).0; EventsOk(next.invoices, next.attempts, next.events)
  {
    var next := Voided(db, business, invoice, now).0;
    AppendKeepsEvents(db, next.invoices, next.attempts, Event(business, InvoiceVoided, invoice));
  }

  lemma VoidKeepsTables(db: Db, business: Id, invoice: Id, now: Time)
    requires Tables(db)
    ensures Tables(Voided(db, business, invoice, now).0)
  {
    if CasMatches(db, business, invoice, VoidInvoice) {
      VoidKeepsEvents(db, business, invoice, now);
      VoidKeepsAgreement(db.invoices, db.attempts, invoice, now);
      AppendKeepsOwned(db.invoices, Voided(db, business, invoice, now).0.invoices, db.events,
                       [Event(business, InvoiceVoided, invoice)]);
    }
  }

  lemma VoidKeepsAgreement(invoices: map<Id, Invoice>, attempts: map<Id, Attempt>, invoice: Id, now: Time)
    requires RowsOk(invoices, attempts) && Agree(invoices, attempts)
    requires invoice in invoices && invoices[invoice].status == InvoiceStatus.Open
    ensures var invoices' := invoices[invoice := Transition.VoidInvoice.Move(invoices[invoice], now)];
            RowsOk(invoices', attempts) && Agree(invoices', attempts)
  {
  }

  // ----- Claiming

  lemma ClaimKeepsBacking(invoices: map<Id, Invoice>, attempts: map<Id, Attempt>, invoice: Id, attempt: Id,
                          row: Invoice, attemptRow: Attempt)
    requires InvoicesBacked(invoices, attempts) && attempt !in attempts
    requires row.status == InvoiceStatus.Processing
    requires attemptRow.invoice == invoice && attemptRow.status == AttemptStatus.Pending
    ensures InvoicesBacked(invoices[invoice := row], attempts[attempt := attemptRow])
  {
    var attempts' := attempts[attempt := attemptRow];
    forall i, status: AttemptStatus | HasAttempt(attempts, i, status)
      ensures HasAttempt(attempts', i, status)
    {
      var a :| a in attempts && attempts[a].invoice == i && attempts[a].status == status;
      assert a in attempts' && attempts'[a].invoice == i && attempts'[a].status == status;
    }
    assert attempt in attempts' && attempts'[attempt].invoice == invoice;
  }

  lemma ClaimKeepsAgreement(invoices: map<Id, Invoice>, attempts: map<Id, Attempt>, invoice: Id, attempt: Id,
                            row: Invoice, attemptRow: Attempt)
    requires RowsOk(invoices, attempts) && Agree(invoices, attempts)
    requires invoice in invoices && invoices[invoice].status == InvoiceStatus.Open && attempt !in attempts
    requires row.status == InvoiceStatus.Processing
    requires attemptRow.invoice == invoice && attemptRow.status == AttemptStatus.Pending
    ensures Agree(invoices[invoice := row], attempts[attempt := attemptRow])
  {
    ClaimKeepsBacking(invoices, attempts, invoice, attempt, row, attemptRow);
    assert NoClash(attempts[attempt := attemptRow]);
  }

  lemma ClaimKeepsRows(invoices: map<Id, Invoice>, attempts: map<Id, Attempt>, invoice: Id, attempt: Id,
                       started: Time, firstLook: Time)
    requires RowsOk(invoices, attempts)
    requires invoice in invoices && invoices[invoice].status == InvoiceStatus.Open && attempt !in attempts
    ensures var row := BeginPayment.Move(invoices[invoice], started);
            RowsOk(invoices[invoice := row], attempts[attempt := NewAttempt(invoice, row, started, firstLook)])
  {
  }

  lemma ClaimKeepsKeys(attempts: map<Id, Attempt>, keys: map<KeyId, KeyRow>, attempt: Id, row: Attempt,
                       key: KeyId, fingerprint: Fingerprint)
    requires KeysOk(attempts, keys) && attempt !in attempts && key !in keys
    requires row.status == AttemptStatus.Pending && row.business == key.business && row.invoice == fingerprint.invoice
    ensures KeysOk(attempts[attempt := row], keys[key := KeyRow(fingerprint, Some(attempt), None)])
  {
    var attempts' := attempts[attempt := row];
    var keys' := keys[key := KeyRow(fingerprint, Some(attempt), None)];
    forall a | a in attempts' ensures HasKey(keys', a) {
      if a == attempt {
        assert key in keys' && keys'[key].attempt == Some(attempt);
      } else {
        assert HasKey(keys, a);
        var k :| k in keys && keys[k].attempt == Some(a);
        assert k in keys' && keys'[k].attempt == Some(a);
      }
    }
    forall k | k in keys' ensures KeyRowOk(k.business, keys'[k], attempts') {
      if k != key {
        assert KeyRowOk(k.business, keys[k], attempts);
      }
    }
  }

  lemma ClaimKeepsEvents(db: Db, invoice: Id, attempt: Id, row: Invoice, attemptRow: Attempt)
    requires EventsOk(db.invoices, db.attempts, db.events)
    requires invoice in db.invoices && db.invoices[invoice].status == InvoiceStatus.Open && attempt !in db.attempts
    requires row.status == InvoiceStatus.Processing && attemptRow.status == AttemptStatus.Pending
    ensures EventsOk(db.invoices[invoice := row], db.attempts[attempt := attemptRow], db.events)
  {
    forall i ensures FailedOn(db.attempts[attempt := attemptRow], i) == FailedOn(db.attempts, i) {}
  }

  lemma ClaimKeepsTables(db: Db, key: KeyId, fingerprint: Fingerprint, attempt: Id, started: Time, firstLook: Time)
    requires Tables(db) && key !in db.keys && attempt !in db.attempts
    requires CasMatches(db, key.business, fingerprint.invoice, BeginPayment)
    ensures Tables(ApplyClaim(db, key, fingerprint, attempt, started, firstLook))
  {
    var invoice := fingerprint.invoice;
    var row := BeginPayment.Move(db.invoices[invoice], started);
    var attemptRow := NewAttempt(invoice, row, started, firstLook);
    ClaimKeepsAgreement(db.invoices, db.attempts, invoice, attempt, row, attemptRow);
    ClaimKeepsKeys(db.attempts, db.keys, attempt, attemptRow, key, fingerprint);
    ClaimKeepsEvents(db, invoice, attempt, row, attemptRow);
    ClaimKeepsRows(db.invoices, db.attempts, invoice, attempt, started, firstLook);
    AppendKeepsOwned(db.invoices, db.invoices[invoice := row], db.events, []);
    assert db.events + [] == db.events;
  }

  lemma ExplainKeepsTables(db: Db, key: KeyId, fingerprint: Fingerprint)
    requires Tables(db) && key !in db.keys
    ensures Tables(Explained(db, key, fingerprint).0)
  {
    hide RowsOk, Agree, KeysOk, EventsOk;
    var reply := ClaimRejection(Find(db, key.business, fingerprint.invoice));
    if Explained(db, key, fingerprint).1.Rejected? {
      RejectionKeepsKeys(db.attempts, db.keys, key, KeyRow(fingerprint, None, Some(reply)));
    }
  }

  lemma RejectionKeepsKeys(attempts: map<Id, Attempt>, keys: map<KeyId, KeyRow>, key: KeyId, row: KeyRow)
    requires KeysOk(attempts, keys) && key !in keys
    requires row.attempt.None? && KeyRowOk(key.business, row, attempts)
    ensures KeysOk(attempts, keys[key := row])
  {
    hide KeyRowOk;
    var keys' := keys[key := row];
    forall a | a in attempts ensures HasKey(keys', a) {
      assert HasKey(keys, a);
      var k :| k in keys && keys[k].attempt == Some(a);
      assert k in keys' && keys'[k].attempt == Some(a);
    }
  }

  lemma ClaimTransactionKeepsTables(db: Db, key: KeyId, fingerprint: Fingerprint, attempt: Id, started: Time,
                                    firstLook: Time)
    requires Tables(db) && attempt !in db.attempts
    ensures Tables(Claim(db, key, fingerprint, attempt, started, firstLook).0)
  {
    if key !in db.keys {
      if CasMatches(db, key.business, fingerprint.invoice, BeginPayment) {
        ClaimKeepsTables(db, key, fingerprint, attempt, started, firstLook);
      } else {
        ExplainKeepsTables(db, key, fingerprint);
      }
    }
  }

  // ----- Settling

  lemma SettleKeepsRows(db: Db, attempt: Id, settlement: Settlement, now: Time)
    requires RowsOk(db.invoices, db.attempts) && AttemptsFit(db.invoices, db.attempts) && Settleable(db, attempt)
    ensures var next := ApplySettlement(db, attempt, settlement, now).0; RowsOk(next.invoices, next.attempts)
  {
  }

  lemma SettleKeepsFit(db: Db, attempt: Id, settlement: Settlement, now: Time)
    requires RowsOk(db.invoices, db.attempts) && AttemptsFit(db.invoices, db.attempts) && NoClash(db.attempts)
    requires Settleable(db, attempt)
    ensures var next := ApplySettlement(db, attempt, settlement, now).0;
            AttemptsFit(next.invoices, next.attempts) && NoClash(next.attempts)
  {
    var invoice := db.attempts[attempt].invoice;
    forall a | a in db.attempts && a != attempt && db.attempts[a].invoice == invoice
      ensures db.attempts[a].status == AttemptStatus.Failed
    {
      assert Clash(db.attempts[a], db.attempts[attempt]) ==> a == attempt;
    }
  }

  lemma SettleKeepsBacking(db: Db, attempt: Id, settlement: Settlement, now: Time)
    requires RowsOk(db.invoices, db.attempts) && InvoicesBacked(db.invoices, db.attempts) && Settleable(db, attempt)
    ensures var next := ApplySettlement(db, attempt, settlement, now).0; InvoicesBacked(next.invoices, next.attempts)
  {
    var next := ApplySettlement(db, attempt, settlement, now).0;
    var invoice := db.attempts[attempt].invoice;
    forall i, status: AttemptStatus | i != invoice && HasAttempt(db.attempts, i, status)
      ensures HasAttempt(next.attempts, i, status)
    {
      var a :| a in db.attempts && db.attempts[a].invoice == i && db.attempts[a].status == status;
      assert a in next.attempts && next.attempts[a].invoice == i && next.attempts[a].status == status;
    }
    if settlement.Succeeded? {
      assert attempt in next.attempts && next.attempts[attempt].invoice == invoice;
    }
  }

  lemma SettleKeepsKeys(attempts: map<Id, Attempt>, keys: map<KeyId, KeyRow>, attempt: Id, row: Attempt, reply: Reply)
    requires KeysOk(attempts, keys) && attempt in attempts && attempts[attempt].status == AttemptStatus.Pending
    requires row.invoice == attempts[attempt].invoice && row.business == attempts[attempt].business
    requires Answers(reply, row)
    ensures KeysOk(attempts[attempt := row], CompletedFor(keys, attempt, reply))
  {
    hide KeyRowOk;
    var attempts' := attempts[attempt := row];
    var keys' := CompletedFor(keys, attempt, reply);
    forall k | k in keys' ensures KeyRowOk(k.business, keys'[k], attempts') {
      SettleKeepsKeyRow(attempts, attempt, row, reply, k.business, keys[k]);
    }
    forall a | a in attempts' ensures HasKey(keys', a) {
      assert HasKey(keys, a);
      var k :| k in keys && keys[k].attempt == Some(a);
      assert k in keys' && keys'[k].attempt == Some(a);
    }
  }

  lemma SettleKeepsKeyRow(attempts: map<Id, Attempt>, attempt: Id, row: Attempt, reply: Reply, business: Id, key: KeyRow)
    requires KeyRowOk(business, key, attempts) && attempt in attempts && attempts[attempt].status == AttemptStatus.Pending
    requires row.invoice == attempts[attempt].invoice && row.business == attempts[attempt].business
    requires Answers(reply, row)
    ensures KeyRowOk(business, Completed(key, attempt, reply), attempts[attempt := row])
  {
  }

  lemma SettledFailures(attempts: map<Id, Attempt>, attempt: Id, row: Attempt, invoice: Id)
    requires attempt in attempts && attempts[attempt].status == AttemptStatus.Pending
    requires row.invoice == attempts[attempt].invoice
    ensures |FailedOn(attempts[attempt := row], invoice)| ==
            |FailedOn(attempts, invoice)| + if row.invoice == invoice && row.status == AttemptStatus.Failed then 1 else 0
  {
    if row.invoice == invoice && row.status == AttemptStatus.Failed {
      assert FailedOn(attempts[attempt := row], invoice) == FailedOn(attempts, invoice) + {attempt};
    } else {
      assert FailedOn(attempts[attempt := row], invoice) == FailedOn(attempts, invoice);
    }
  }

  lemma SettleKeepsEvents(db: Db, attempt: Id, settlement: Settlement, now: Time)
    requires EventsOk(db.invoices, db.attempts, db.events) && Settleable(db, attempt)
    requires db.attempts[attempt].invoice in db.invoices
    requires db.invoices[db.attempts[attempt].invoice].status == InvoiceStatus.Processing
    ensures var next := ApplySettlement(db, attempt, settlement, now).0;
            EventsOk(next.invoices, next.attempts, next.events)
  {
    var next := ApplySettlement(db, attempt, settlement, now).0;
    var row := db.attempts[attempt];
    forall i ensures |FailedOn(next.attempts, i)| ==
                     |FailedOn(db.attempts, i)| + if i == row.invoice && settlement.Failed? then 1 else 0
    {
      SettledFailures(db.attempts, attempt, next.attempts[attempt], i);
    }
    AppendKeepsEvents(db, next.invoices, next.attempts, Event(row.business, SettleEvent(settlement), row.invoice));
  }

  /** A pending attempt's invoice is processing, so the compare-and-set of a settlement always matches. */
  lemma SettleApplies(db: Db, attempt: Id, settlement: Settlement)
    requires RowsOk(db.invoices, db.attempts) && Agree(db.invoices, db.attempts) && Settleable(db, attempt)
    ensures var row := db.attempts[attempt];
            CasMatches(db, row.business, row.invoice, SettleTransition(settlement))
  {
  }

  lemma SettleKeepsOwned(db: Db, attempt: Id, settlement: Settlement, now: Time)
    requires RowsOk(db.invoices, db.attempts) && EventsOwned(db.invoices, db.events) && Settleable(db, attempt)
    ensures var next := ApplySettlement(db, attempt, settlement, now).0; EventsOwned(next.invoices, next.events)
  {
    var row := db.attempts[attempt];
    AppendKeepsOwned(db.invoices, ApplySettlement(db, attempt, settlement, now).0.invoices, db.events,
                     [Event(row.business, SettleEvent(settlement), row.invoice)]);
  }

  lemma SettleKeepsTables(db: Db, attempt: Id, settlement: Settlement, now: Time)
    requires Tables(db)
    ensures Tables(Settle(db, attempt, settlement, now).0)
  {
    if Settleable(db, attempt) {
      SettleApplies(db, attempt, settlement);
      SettleKeepsRows(db, attempt, settlement, now);
      SettleKeepsFit(db, attempt, settlement, now);
      SettleKeepsBacking(db, attempt, settlement, now);
      SettleKeepsEvents(db, attempt, settlement, now);
      SettleKeepsOwned(db, attempt, settlement, now);
      var (next, reply) := ApplySettlement(db, attempt, settlement, now);
      SettleKeepsKeys(db.attempts, db.keys, attempt, next.attempts[attempt], reply);
    }
  }

  // ----- The network, the PSP and the workers

  lemma ClaimKeepsOutside(t: Timing, s: State, attempt: Id, row: Attempt, token: string)
    requires Outside(t, s) && attempt !in s.db.attempts
    requires row.status == AttemptStatus.Pending && ScheduleRow(t, row, s.now)
    ensures Outside(t, s.(db := s.db.(attempts := s.db.attempts[attempt := row]),
                          handlers := s.handlers[attempt := ToSend(token)]))
  {
  }

  lemma SendKeepsOutside(t: Timing, s: State, attempt: Id)
    requires Outside(t, s) && Enabled(t, s, Send(attempt))
    ensures Outside(t, Next(t, s, Send(attempt)))
  {
    var sends := Next(t, s, Send(attempt)).sends;
    forall a | Requested(s.sends, a) ensures Requested(sends, a) {
      var j :| 0 <= j < |s.sends| && s.sends[j].attempt == a;
      assert sends[j].attempt == a;
    }
    assert sends[|s.sends|].attempt == attempt;
    assert forall j :: 0 <= j < |s.sends| ==> Requested(s.sends, s.sends[j].attempt);
  }

  /** A request that can still arrive belongs to an attempt that is not closed, hence not settled without a charge. */
  lemma ReceiveKeepsOutside(t: Timing, s: State, request: nat, pspRef: string)
    requires Outside(t, s) && Enabled(t, s, PspReceives(request, pspRef))
    ensures Outside(t, Next(t, s, PspReceives(request, pspRef)))
  {
    hide ScheduleOk;
    var r := s.sends[request];
    assert Requested(s.sends, r.attempt);
    var charge := RecordCases(s.charges, r.attempt, r.amount, r.token, pspRef, s.now, t.psp);
    if r.attempt !in s.charges {
      ReceiptKeepsOutcomes(t, s, r.attempt, charge);
    }
  }

  lemma ReceiptKeepsOutcomes(t: Timing, s: State, attempt: Id, charge: Charge)
    requires OutcomesOk(t, s.db.attempts, s.charges, s.now) && WorkOk(t, s.db.attempts, s.charges, s.work, s.now)
    requires attempt in s.db.attempts && !Closed(t, s.db.attempts[attempt], s.now) && attempt !in s.charges
    ensures OutcomesOk(t, s.db.attempts, s.charges[attempt := charge], s.now)
    ensures WorkOk(t, s.db.attempts, s.charges[attempt := charge], s.work, s.now)
  {
    var charges := s.charges[attempt := charge];
    forall w | w in s.work ensures WorkItemOk(t, w, s.db.attempts, charges, s.now) {
      assert WorkItemOk(t, w, s.db.attempts, s.charges, s.now);
    }
  }

  lemma AnswerKeepsOutside(t: Timing, s: State, attempt: Id, reply: HttpReply)
    requires Outside(t, s) && Enabled(t, s, HandlerHears(attempt, reply))
    ensures Outside(t, Next(t, s, HandlerHears(attempt, reply)))
  {
  }

  lemma DueKeepsOutside(t: Timing, s: State, batch: seq<Id>, locked: set<Id>)
    requires t.config.Validate().Ok? && Outside(t, s) && Enabled(t, s, ClaimDue(batch, locked))
    ensures Outside(t, Next(t, s, ClaimDue(batch, locked)))
  {
    var leased := LeaseAll(s.db.attempts, batch, s.now, RECONCILE_LEASE);
    LeasingRebooks(s.db.attempts, locked, batch, s.now, RECONCILE_LEASE);
    LeasingKeepsSchedule(t, s, batch);
    RebookKeepsOutside(t, s, leased);
    DueWorkIsOk(t, s, batch);
    AddsKeepOutside(t, s.(db := s.db.(attempts := leased)), DueWork(leased, batch, s.now, t.config.notFoundGrace));
  }

  lemma LeasingKeepsSchedule(t: Timing, s: State, batch: seq<Id>)
    requires t.config.Validate().Ok? && ScheduleOk(t, s.db.attempts, s.now)
    requires forall a :: a in batch ==> a in s.db.attempts && IsDue(s.db.attempts[a], s.now)
    ensures ScheduleOk(t, LeaseAll(s.db.attempts, batch, s.now, RECONCILE_LEASE), s.now)
  {
  }

  lemma DueWorkIsOk(t: Timing, s: State, batch: seq<Id>)
    requires ScheduleOk(t, s.db.attempts, s.now)
    requires forall a :: a in batch ==> a in s.db.attempts && IsDue(s.db.attempts[a], s.now)
    ensures var leased := LeaseAll(s.db.attempts, batch, s.now, RECONCILE_LEASE);
            forall w :: w in DueWork(leased, batch, s.now, t.config.notFoundGrace) ==>
              WorkItemOk(t, w, leased, s.charges, s.now)
  {
    var leased := LeaseAll(s.db.attempts, batch, s.now, RECONCILE_LEASE);
    var due := DueWork(leased, batch, s.now, t.config.notFoundGrace);
    forall w | w in due ensures WorkItemOk(t, w, leased, s.charges, s.now) {
      var j :| 0 <= j < |due| && due[j] == w;
      assert batch[j] in batch && ScheduleRow(t, s.db.attempts[batch[j]], s.now);
    }
  }

  lemma AddsKeepOutside(t: Timing, s: State, added: seq<Work>)
    requires Outside(t, s) && forall w :: w in added ==> WorkItemOk(t, w, s.db.attempts, s.charges, s.now)
    ensures Outside(t, s.(work := s.work + multiset(added)))
  {
  }

  /** With Timely, a lookup that finds nothing past the grace window finds nothing for good. */
  lemma LookKeepsOutside(t: Timing, s: State, due: Work, reply: HttpReply)
    requires Timely(t) && Outside(t, s) && due in s.work && due.Due?
    requires MayAnswerLookup(s.charges, due.attempt, s.now, reply)
    ensures Outside(t, s.(work := s.work - multiset{due} + multiset{AfterLook(due, ReadLookup(reply))}))
  {
    assert WorkItemOk(t, due, s.db.attempts, s.charges, s.now);
  }

  lemma DropKeepsOutside(t: Timing, s: State, work: Work)
    requires Outside(t, s)
    ensures Outside(t, s.(work := s.work - multiset{work}))
  {
  }

  lemma SettleKeepsOutside(t: Timing, s: State, attempt: Id, settlement: Settlement)
    requires Outside(t, s) && Settleable(s.db, attempt) && s.db.attempts[attempt].invoice in s.db.invoices
    requires Truthful(t, attempt, s.db.attempts[attempt], s.charges, settlement, s.now)
    ensures Outside(t, s.(db := ApplySettlement(s.db, attempt, settlement, s.now).0))
  {
  }

  lemma TickKeepsOutside(t: Timing, s: State, elapsed: Time)
    requires Outside(t, s)
    ensures Outside(t, s.(now := s.now + elapsed))
  {
  }

  // ----- Money

  /** A request that arrives for an attempt the PSP does not know finds that attempt pending. */
  lemma ArrivesPending(t: Timing, s: State, request: nat, pspRef: string)
    requires Outside(t, s) && Enabled(t, s, PspReceives(request, pspRef))
    ensures var r := s.sends[request];
            && r.attempt in s.db.attempts
            && r.amount == s.db.attempts[r.attempt].amount
            && (r.attempt !in s.charges ==> s.db.attempts[r.attempt].status == AttemptStatus.Pending)
  {
  }

  lemma ChargeIsInFlight(attempts: map<Id, Attempt>, charges: map<Id, Charge>, a: Id, charge: Charge)
    requires a !in charges && a in attempts && attempts[a].status == AttemptStatus.Pending
    requires charge.amount == attempts[a].amount
    ensures Sum(Taken(charges[a := charge])) - Sum(Taken(charges))
         == Sum(TakenInFlight(attempts, charges[a := charge])) - Sum(TakenInFlight(attempts, charges))
  {
    if charge.outcome.Succeeded? {
      SumInsert(Taken(charges), a, charge.amount);
      assert Taken(charges[a := charge]) == Taken(charges)[a := charge.amount];
      SumInsert(TakenInFlight(attempts, charges), a, charge.amount);
      assert TakenInFlight(attempts, charges[a := charge]) == TakenInFlight(attempts, charges)[a := charge.amount];
    } else {
      assert Taken(charges[a := charge]) == Taken(charges);
      assert TakenInFlight(attempts, charges[a := charge]) == TakenInFlight(attempts, charges);
    }
  }

  /** The PSP records a new key or changes nothing. */
  lemma RecordCases(charges: map<Id, Charge>, a: Id, amount: nat, token: string, pspRef: string, now: Time,
                    config: MockConfig) returns (charge: Charge)
    ensures charge.amount == amount && charge.outcome != Settlement.Failed("psp_no_record")
    ensures var charges' := Record(charges, a, amount, token, pspRef, now, config);
            charges' == charges || (a !in charges && charges' == charges[a := charge])
  {
    var decision := Decide(token, pspRef, config);
    charge := if decision.Some? then Charge(amount, decision.value.0, now + decision.value.1)
              else Charge(amount, Settlement.Failed(""), now);
  }

  lemma RecordKeepsMoney(invoices: map<Id, Invoice>, attempts: map<Id, Attempt>, charges: map<Id, Charge>,
                         a: Id, token: string, pspRef: string, now: Time, config: MockConfig)
    requires MoneyOk(invoices, attempts, charges) && a in attempts
    requires a !in charges ==> attempts[a].status == AttemptStatus.Pending
    ensures MoneyOk(invoices, attempts, Record(charges, a, attempts[a].amount, token, pspRef, now, config))
  {
    var charge := RecordCases(charges, a, attempts[a].amount, token, pspRef, now, config);
    if a !in charges {
      ChargeIsInFlight(attempts, charges, a, charge);
    }
  }

  lemma ReceiveKeepsMoney(t: Timing, s: State, request: nat, pspRef: string)
    requires Outside(t, s) && MoneyOk(s.db.invoices, s.db.attempts, s.charges)
    requires Enabled(t, s, PspReceives(request, pspRef))
    ensures MoneyOk(s.db.invoices, s.db.attempts, Next(t, s, PspReceives(request, pspRef)).charges)
  {
    ArrivesPending(t, s, request, pspRef);
    var r := s.sends[request];
    RecordKeepsMoney(s.db.invoices, s.db.attempts, s.charges, r.attempt, r.token, pspRef, s.now, t.psp);
  }

  lemma AddsUnpaid(invoices: map<Id, Invoice>, invoice: Id, row: Invoice)
    requires invoice !in invoices && row.status != InvoiceStatus.Paid
    ensures PaidTotals(invoices[invoice := row]) == PaidTotals(invoices)
  {
  }

  lemma PaysInvoice(invoices: map<Id, Invoice>, invoice: Id, row: Invoice)
    requires invoice in invoices && invoices[invoice].status != InvoiceStatus.Paid && row.total == invoices[invoice].total
    ensures Sum(PaidTotals(invoices[invoice := row])) ==
            Sum(PaidTotals(invoices)) + if row.status == InvoiceStatus.Paid then row.total else 0
  {
    if row.status == InvoiceStatus.Paid {
      SumInsert(PaidTotals(invoices), invoice, row.total);
      assert PaidTotals(invoices[invoice := row]) == PaidTotals(invoices)[invoice := row.total];
    } else {
      assert PaidTotals(invoices[invoice := row]) == PaidTotals(invoices);
    }
  }

  lemma LeavesFlight(attempts: map<Id, Attempt>, charges: map<Id, Charge>, attempt: Id, row: Attempt)
    requires attempt in attempts && attempts[attempt].status == AttemptStatus.Pending
    requires row.status != AttemptStatus.Pending
    ensures Sum(TakenInFlight(attempts[attempt := row], charges)) ==
            Sum(TakenInFlight(attempts, charges))
            - if attempt in charges && charges[attempt].outcome.Succeeded? then attempts[attempt].amount else 0
  {
    var before := TakenInFlight(attempts, charges);
    if attempt in charges && charges[attempt].outcome.Succeeded? {
      SumSplit(before, attempt);
      assert TakenInFlight(attempts[attempt := row], charges) == before - {attempt};
    } else {
      assert TakenInFlight(attempts[attempt := row], charges) == before;
    }
  }

  /** Settling moves a charge that was taken from "in flight" to "paid", and moves nothing otherwise. */
  lemma SettleKeepsMoney(t: Timing, s: State, attempt: Id, settlement: Settlement)
    requires RowsOk(s.db.invoices, s.db.attempts) && AttemptsFit(s.db.invoices, s.db.attempts)
    requires MoneyOk(s.db.invoices, s.db.attempts, s.charges) && Settleable(s.db, attempt)
    requires Truthful(t, attempt, s.db.attempts[attempt], s.charges, settlement, s.now)
    ensures var next := ApplySettlement(s.db, attempt, settlement, s.now).0;
            MoneyOk(next.invoices, next.attempts, s.charges)
  {
    var next := ApplySettlement(s.db, attempt, settlement, s.now).0;
    var invoice := s.db.attempts[attempt].invoice;
    PaysInvoice(s.db.invoices, invoice, next.invoices[invoice]);
    LeavesFlight(s.db.attempts, s.charges, attempt, next.attempts[attempt]);
  }

  lemma ClaimKeepsMoney(invoices: map<Id, Invoice>, attempts: map<Id, Attempt>, charges: map<Id, Charge>,
                        invoice: Id, attempt: Id, row: Invoice, attemptRow: Attempt)
    requires MoneyOk(invoices, attempts, charges) && attempt !in charges && attempt !in attempts
    requires invoice in invoices && invoices[invoice].status != InvoiceStatus.Paid && row.status != InvoiceStatus.Paid
    ensures MoneyOk(invoices[invoice := row], attempts[attempt := attemptRow], charges)
  {
    assert PaidTotals(invoices[invoice := row]) == PaidTotals(invoices);
    assert TakenInFlight(attempts[attempt := attemptRow], charges) == TakenInFlight(attempts, charges);
  }

  // ----- Every step

  lemma ClaimKeepsInv(t: Timing, s: State, key: KeyId, fingerprint: Fingerprint, attempt: Id, started: Time)
    requires t.config.Validate().Ok? && Inv(t, s) && Enabled(t, s, ClaimInvoice(key, fingerprint, attempt, started))
    ensures Inv(t, Next(t, s, ClaimInvoice(key, fingerprint, attempt, started)))
  {
    var next := Next(t, s, ClaimInvoice(key, fingerprint, attempt, started));
    if key !in s.db.keys && CasMatches(s.db, key.business, fingerprint.invoice, BeginPayment) {
      ClaimKeepsTables(s.db, key, fingerprint, attempt, started, t.config.FirstLook());
      ClaimKeepsOutside(t, s, attempt, next.db.attempts[attempt], fingerprint.cardToken);
      ClaimKeepsMoney(s.db.invoices, s.db.attempts, s.charges, fingerprint.invoice, attempt,
                      next.db.invoices[fingerprint.invoice], next.db.attempts[attempt]);
    }
  }

  lemma SettleKeepsInv(t: Timing, s: State, work: Work)
    requires Inv(t, s) && Enabled(t, s, SettleAttempt(work))
    ensures Inv(t, Next(t, s, SettleAttempt(work)))
  {
    assert WorkItemOk(t, work, s.db.attempts, s.charges, s.now);
    SettleKeepsTables(s.db, work.attempt, work.settlement, s.now);
    if Settleable(s.db, work.attempt) {
      SettleApplies(s.db, work.attempt, work.settlement);
      SettleKeepsOutside(t, s, work.attempt, work.settlement);
      SettleKeepsMoney(t, s, work.attempt, work.settlement);
      DropKeepsOutside(t, s.(db := ApplySettlement(s.db, work.attempt, work.settlement, s.now).0), work);
    } else {
      DropKeepsOutside(t, s, work);
    }
  }

  lemma RebookKeepsInv(t: Timing, s: State, attempts: map<Id, Attempt>)
    requires Inv(t, s) && OnlyRebooked(s.db.attempts, attempts) && ScheduleOk(t, attempts, s.now)
    ensures Inv(t, s.(db := s.db.(attempts := attempts)))
  {
    RebookKeepsTables(s.db, attempts);
    RebookKeepsOutside(t, s, attempts);
    RebookKeepsMoney(s, attempts);
  }

  lemma ReschedulingRebooks(t: Timing, s: State, attempt: Id, checks: nat)
    requires ScheduleOk(t, s.db.attempts, s.now) && Settleable(s.db, attempt)
    requires s.db.attempts[attempt].createdAt + t.config.FirstLook() <= s.now
    ensures var attempts := Rescheduled(s.db, attempt, checks, s.now).attempts;
            OnlyRebooked(s.db.attempts, attempts) && ScheduleOk(t, attempts, s.now)
  {
  }

  lemma RescheduleKeepsInv(t: Timing, s: State, work: Work)
    requires Inv(t, s) && Enabled(t, s, Reschedule(work))
    ensures Inv(t, Next(t, s, Reschedule(work)))
  {
    hide Tables, NetworkOk, ChargesOk, OutcomesOk, ScheduleOk, MoneyOk;
    assert WorkItemOk(t, work, s.db.attempts, s.charges, s.now);
    var booked := s.(db := Rescheduled(s.db, work.attempt, work.checks, s.now));
    if Settleable(s.db, work.attempt) {
      ReschedulingRebooks(t, s, work.attempt, work.checks);
      RebookKeepsInv(t, s, booked.db.attempts);
    }
    DropKeepsOutside(t, booked, work);
    OutsideStepKeepsInv(t, booked, Next(t, s, Reschedule(work)));
  }

  lemma CreateKeepsInv(t: Timing, s: State, invoice: Id, business: Id, total: nat)
    requires Inv(t, s) && Enabled(t, s, CreateInvoice(invoice, business, total))
    ensures Inv(t, Next(t, s, CreateInvoice(invoice, business, total)))
  {
    CreateKeepsTables(s.db, invoice, business, total);
    AddsUnpaid(s.db.invoices, invoice, Created(s.db, invoice, business, total).invoices[invoice]);
  }

  lemma VoidKeepsInv(t: Timing, s: State, business: Id, invoice: Id)
    requires Inv(t, s)
    ensures Inv(t, Next(t, s, Step.Void(business, invoice)))
  {
    VoidKeepsTables(s.db, business, invoice, s.now);
    if CasMatches(s.db, business, invoice, VoidInvoice) {
      PaysInvoice(s.db.invoices, invoice, Voided(s.db, business, invoice, s.now).0.invoices[invoice]);
    }
  }

  lemma ExplainTouchesKeys(db: Db, key: KeyId, fingerprint: Fingerprint)
    ensures var db' := Explained(db, key, fingerprint).0;
            db' == db.(keys := db'.keys) && db'.keys.Keys <= db.keys.Keys + {key}
  {
  }

  lemma OutsideReadsAttemptsOnly(t: Timing, s: State, s': State)
    requires Outside(t, s) && s'.db.attempts == s.db.attempts && s' == s.(db := s'.db, explaining := s'.explaining)
    ensures Outside(t, s')
  {
  }

  lemma ExplainKeepsInv(t: Timing, s: State, key: KeyId)
    requires Inv(t, s) && Enabled(t, s, Explain(key))
    ensures Inv(t, Next(t, s, Explain(key)))
  {
    hide Tables, Outside, MoneyOk;
    ExplainKeepsTables(s.db, key, s.explaining[key]);
    ExplainTouchesKeys(s.db, key, s.explaining[key]);
    OutsideReadsAttemptsOnly(t, s, Next(t, s, Explain(key)));
  }

  /** A step outside the database has to keep only what is outside it, and the money. */
  lemma OutsideStepKeepsInv(t: Timing, s: State, s': State)
    requires Inv(t, s) && s'.db == s.db && s'.explaining == s.explaining
    requires Outside(t, s') && MoneyOk(s.db.invoices, s.db.attempts, s'.charges)
    ensures Inv(t, s')
  {
  }

  lemma NetworkStepKeepsOutside(t: Timing, s: State, step: Step)
    requires Outside(t, s) && Enabled(t, s, step)
    requires step.Send? || step.PspReceives? || step.HandlerHears? || step.HandlerGivesUp? || step.Tick? || step.Crash?
    ensures Outside(t, Next(t, s, step))
  {
    hide Outside, Record;
    if step.Send? {
      SendKeepsOutside(t, s, step.attempt);
    } else if step.PspReceives? {
      ReceiveKeepsOutside(t, s, step.request, step.pspRef);
    } else if step.HandlerHears? {
      AnswerKeepsOutside(t, s, step.attempt, step.reply);
    } else if step.Tick? {
      TickKeepsOutside(t, s, step.elapsed);
    } else if step.Crash? {
      DropKeepsOutside(t, s, step.work);
    } else {
      GivingUpKeepsOutside(t, s, step.attempt);
    }
  }

  lemma GivingUpKeepsOutside(t: Timing, s: State, attempt: Id)
    requires Outside(t, s)
    ensures Outside(t, s.(handlers := s.handlers - {attempt}))
  {
  }

  lemma NetworkStepFrame(t: Timing, s: State, step: Step)
    requires Enabled(t, s, step)
    requires step.Send? || step.PspReceives? || step.HandlerHears? || step.HandlerGivesUp? || step.Tick? || step.Crash?
    ensures var next := Next(t, s, step);
            next.db == s.db && next.explaining == s.explaining && (next.charges != s.charges ==> step.PspReceives?)
  {
  }

  lemma NetworkStepKeepsInv(t: Timing, s: State, step: Step)
    requires Inv(t, s) && Enabled(t, s, step)
    requires step.Send? || step.PspReceives? || step.HandlerHears? || step.HandlerGivesUp? || step.Tick? || step.Crash?
    ensures Inv(t, Next(t, s, step))
  {
    NetworkStepKeepsOutside(t, s, step);
    NetworkStepFrame(t, s, step);
    var next := Next(t, s, step);
    assert MoneyOk(s.db.invoices, s.db.attempts, next.charges) by {
      if step.PspReceives? {
        ReceiveKeepsMoney(t, s, step.request, step.pspRef);
      }
    }
    OutsideStepKeepsInv(t, s, next);
  }

  lemma DueKeepsInv(t: Timing, s: State, batch: seq<Id>, locked: set<Id>)
    requires t.config.Validate().Ok? && Inv(t, s) && Enabled(t, s, ClaimDue(batch, locked))
    ensures Inv(t, Next(t, s, ClaimDue(batch, locked)))
  {
    var leased := LeaseAll(s.db.attempts, batch, s.now, RECONCILE_LEASE);
    LeasingRebooks(s.db.attempts, locked, batch, s.now, RECONCILE_LEASE);
    LeasingKeepsSchedule(t, s, batch);
    RebookKeepsInv(t, s, leased);
    DueKeepsOutside(t, s, batch, locked);
    OutsideStepKeepsInv(t, s.(db := s.db.(attempts := leased)), Next(t, s, ClaimDue(batch, locked)));
  }

  lemma LookKeepsInv(t: Timing, s: State, due: Work, reply: HttpReply)
    requires Timely(t) && Inv(t, s) && due in s.work && due.Due?
    requires MayAnswerLookup(s.charges, due.attempt, s.now, reply)
    ensures Inv(t, s.(work := s.work - multiset{due} + multiset{AfterLook(due, ReadLookup(reply))}))
  {
    LookKeepsOutside(t, s, due, reply);
    OutsideStepKeepsInv(t, s, s.(work := s.work - multiset{due} + multiset{AfterLook(due, ReadLookup(reply))}));
  }

  lemma WorkStepKeepsInv(t: Timing, s: State, step: Step)
    requires Sound(t) && Inv(t, s) && Enabled(t, s, step)
    requires step.ClaimDue? || step.Look? || step.Reschedule? || step.SettleAttempt?
    ensures Inv(t, Next(t, s, step))
  {
    if step.ClaimDue? {
      DueKeepsInv(t, s, step.batch, step.locked);
    } else if step.Look? {
      LookKeepsInv(t, s, step.due, step.reply);
    } else if step.Reschedule? {
      RescheduleKeepsInv(t, s, step.work);
    } else {
      SettleKeepsInv(t, s, step.work);
    }
  }

  lemma StepKeepsInv(t: Timing, s: State, step: Step)
    requires Sound(t) && Inv(t, s) && Enabled(t, s, step)
    ensures Inv(t, Next(t, s, step))
  {
    if step.CreateInvoice? {
      CreateKeepsInv(t, s, step.invoice, step.business, step.total);
    } else if step.Void? {
      VoidKeepsInv(t, s, step.business, step.invoice);
    } else if step.Explain? {
      ExplainKeepsInv(t, s, step.key);
    } else if step.ClaimInvoice? {
      ClaimKeepsInv(t, s, step.key, step.fingerprint, step.attempt, step.started);
    } else if step.ClaimDue? || step.Look? || step.Reschedule? || step.SettleAttempt? {
      WorkStepKeepsInv(t, s, step);
    } else {
      NetworkStepKeepsInv(t, s, step);
    }
  }

  lemma InitialInv(t: Timing)
    ensures Inv(t, Initial())
  {
    forall i ensures FailedOn(map[], i) == {} {}
    assert Taken(map[]) == map[] && PaidTotals(map[]) == map[] && TakenInFlight(map[], map[]) == map[];
  }

  lemma {:induction false} RunKeepsInv(t: Timing, s: State, steps: seq<Step>)
    requires Sound(t) && Inv(t, s) && Run(t, s, steps).Some?
    ensures Inv(t, Run(t, s, steps).value)
    decreases |steps|
  {
    if steps != [] {
      StepKeepsInv(t, s, steps[0]);
      RunKeepsInv(t, Next(t, s, steps[0]), steps[1..]);
    }
  }

  /** The invariant holds of every reachable state. */
  lemma ReachableInv(t: Timing, s: State)
    requires Sound(t) && Reachable(t, s)
    ensures Inv(t, s)
  {
    var steps :| Run(t, Initial(), steps) == Some(s);
    InitialInv(t);
    RunKeepsInv(t, Initial(), steps);
  }
}
