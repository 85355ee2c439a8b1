/** What the invariant means for money, settlement, idempotency and the event log, over whole runs. */
module PaymentTheorems {
  import opened Common
  import opened Config
  import opened Schema
  import opened InvoiceState
  import opened Psp
  import opened Transactions
  import opened PaymentProtocol
  import opened PaymentInvariant
  import opened PaymentPreservation
  import opened History

  // ----- What no run ever changes

  ghost predicate DbEvolves(db: Db, db': Db) {
    && (forall i :: i in db.invoices ==>
          && i in db'.invoices
          && db'.invoices[i].business == db.invoices[i].business
          && db'.invoices[i].total == db.invoices[i].total
          && (Terminal(db.invoices[i].status) ==> db'.invoices[i] == db.invoices[i]))
    && (forall a :: a in db.attempts ==>
          && a in db'.attempts
          && db'.attempts[a].invoice == db.attempts[a].invoice
          && db'.attempts[a].business == db.attempts[a].business
          && db'.attempts[a].amount == db.attempts[a].amount
          && db'.attempts[a].createdAt == db.attempts[a].createdAt
          && (db.attempts[a].status != AttemptStatus.Pending ==> db'.attempts[a] == db.attempts[a]))
    && (forall k :: k in db.keys ==>
          && k in db'.keys
          && db'.keys[k].fingerprint == db.keys[k].fingerprint
          && db'.keys[k].attempt == db.keys[k].attempt
          && (db.keys[k].response.Some? ==> db'.keys[k].response == db.keys[k].response))
    && db.events <= db'.events
  }

  /** Nothing recorded is ever unrecorded, and a closed attempt without a charge never gets one. */
  ghost predicate Evolves(t: Timing, s: State, s': State) {
    && DbEvolves(s.db, s'.db)
    && s.now <= s'.now
    && s.sends <= s'.sends
    && (forall a :: a in s.charges ==> a in s'.charges && s'.charges[a] == s.charges[a])
    && (forall a :: a in s.db.attempts && Closed(t, s.db.attempts[a], s.now) && a !in s.charges ==> a !in s'.charges)
  }

  lemma SettleEvolves(db: Db, attempt: Id, settlement: Settlement, now: Time)
    ensures DbEvolves(db, Settle(db, attempt, settlement, now).0)
  {
  }

  lemma ClaimEvolves(db: Db, key: KeyId, fingerprint: Fingerprint, attempt: Id, started: Time, firstLook: Time)
    requires key !in db.keys && attempt !in db.attempts
    requires CasMatches(db, key.business, fingerprint.invoice, BeginPayment)
    ensures DbEvolves(db, ApplyClaim(db, key, fingerprint, attempt, started, firstLook))
  {
  }

  lemma VoidEvolves(db: Db, business: Id, invoice: Id, now: Time)
    ensures DbEvolves(db, Voided(db, business, invoice, now).0)
  {
  }

  lemma ExplainEvolves(db: Db, key: KeyId, fingerprint: Fingerprint)
    requires key !in db.keys
    ensures DbEvolves(db, Explained(db, key, fingerprint).0)
  {
  }

  lemma RebookEvolves(db: Db, attempts: map<Id, Attempt>)
    requires OnlyRebooked(db.attempts, attempts)
    ensures DbEvolves(db, db.(attempts := attempts))
  {
  }

  lemma CreateEvolves(db: Db, invoice: Id, business: Id, total: nat)
    requires invoice !in db.invoices
    ensures DbEvolves(db, Created(db, invoice, business, total))
  {
  }

  lemma EvolvesReflexive(db: Db)
    ensures DbEvolves(db, db)
  {
  }

  lemma DbStepEvolves(t: Timing, s: State, step: Step)
    requires LocksOk(s.db.keys, s.explaining) && Enabled(t, s, step)
    ensures DbEvolves(s.db, Next(t, s, step).db)
  {
    hide DbEvolves, Settle, ApplyClaim, Voided, Explained, Created, CasMatches, Record;
    EvolvesReflexive(s.db);
    if step.SettleAttempt? {
      SettleEvolves(s.db, step.work.attempt, step.work.settlement, s.now);
    } else if step.ClaimInvoice? {
      if step.key !in s.db.keys && CasMatches(s.db, step.key.business, step.fingerprint.invoice, BeginPayment) {
        ClaimEvolves(s.db, step.key, step.fingerprint, step.attempt, step.started, t.config.FirstLook());
      }
    } else if step.Void? {
      VoidEvolves(s.db, step.business, step.invoice, s.now);
    } else if step.Explain? {
      ExplainEvolves(s.db, step.key, s.explaining[step.key]);
    } else if step.ClaimDue? {
      LeasingRebooks(s.db.attempts, step.locked, step.batch, s.now, RECONCILE_LEASE);
      RebookEvolves(s.db, LeaseAll(s.db.attempts, step.batch, s.now, RECONCILE_LEASE));
    } else if step.CreateInvoice? {
      CreateEvolves(s.db, step.invoice, step.business, step.total);
    } else if step.Reschedule? && Settleable(s.db, step.work.attempt) {
      var row := s.db.attempts[step.work.attempt];
      RebookEvolves(s.db, s.db.attempts[step.work.attempt := row.(reconcileAfter := Some(s.now + Backoff(step.work.checks)))]);
    }
  }

  lemma OnlyReceiptsCharge(t: Timing, s: State, step: Step)
    requires Enabled(t, s, step)
    ensures !step.PspReceives? ==> Next(t, s, step).charges == s.charges
    ensures s.sends <= Next(t, s, step).sends && s.now <= Next(t, s, step).now
  {
    match step {
      case Send(attempt) =>
        assert Next(t, s, step).sends[..|s.sends|] == s.sends;
      case Void(_, _) =>
      case ClaimInvoice(_, _, _, _) =>
      case _ =>
    }
  }

  /** A closed attempt has no request left that could still arrive. */
  lemma ReceiveEvolves(t: Timing, s: State, request: nat, pspRef: string)
    requires Outside(t, s) && Enabled(t, s, PspReceives(request, pspRef))
    ensures Evolves(t, s, Next(t, s, PspReceives(request, pspRef)))
  {
  }

  lemma StepEvolves(t: Timing, s: State, step: Step)
    requires Inv(t, s) && Enabled(t, s, step)
    ensures Evolves(t, s, Next(t, s, step))
  {
    if step.PspReceives? {
      ReceiveEvolves(t, s, step.request, step.pspRef);
    } else {
      DbStepEvolves(t, s, step);
      OnlyReceiptsCharge(t, s, step);
    }
  }

  lemma EvolvesTransitive(t: Timing, s: State, s': State, s'': State)
    requires Evolves(t, s, s') && Evolves(t, s', s'')
    ensures Evolves(t, s, s'')
  {
    forall a | a in s.db.attempts && Closed(t, s.db.attempts[a], s.now) && a !in s.charges
      ensures a !in s''.charges
    {
      assert Closed(t, s'.db.attempts[a], s'.now) && a !in s'.charges;
    }
  }

  lemma {:induction false} RunEvolves(t: Timing, s: State, steps: seq<Step>)
    requires Sound(t) && Inv(t, s) && Run(t, s, steps).Some?
    ensures Evolves(t, s, Run(t, s, steps).value)
    decreases |steps|
  {
    if steps != [] {
      var next := Next(t, s, steps[0]);
      StepKeepsInv(t, s, steps[0]);
      StepEvolves(t, s, steps[0]);
      RunEvolves(t, next, steps[1..]);
      EvolvesTransitive(t, s, next, Run(t, s, steps).value);
    }
  }

  lemma LeadsEvolves(t: Timing, s: State, s': State)
    requires Sound(t) && Inv(t, s) && Leads(t, s, s')
    ensures Evolves(t, s, s') && Inv(t, s')
  {
    var steps :| Run(t, s, steps) == Some(s');
    RunEvolves(t, s, steps);
    RunKeepsInv(t, s, steps);
  }

  lemma ReachableEvolves(t: Timing, s: State, s': State)
    requires Sound(t) && Reachable(t, s) && Leads(t, s, s')
    ensures Evolves(t, s, s')
  {
    ReachableInv(t, s);
    LeadsEvolves(t, s, s');
  }

  // ----- Money

  /** Money taken by the PSP is what paid invoices total, plus what pending attempts have already been charged. */
  lemma MoneyIsConserved(t: Timing, s: State)
    requires Sound(t) && Reachable(t, s)
    ensures Sum(Taken(s.charges)) == Sum(PaidTotals(s.db.invoices)) + Sum(TakenInFlight(s.db.attempts, s.charges))
  {
    ReachableInv(t, s);
  }

  predicate TookMoney(s: State, attempt: Id, invoice: Id) {
    && attempt in s.charges && s.charges[attempt].outcome.Succeeded?
    && attempt in s.db.attempts && s.db.attempts[attempt].invoice == invoice
  }

  /** No invoice has two successful charges. */
  ghost predicate NoDoubleCharge(s: State) {
    forall i, a, b :: TookMoney(s, a, i) && TookMoney(s, b, i) ==> a == b
  }

  /** An attempt the PSP charged for is pending or succeeded, and its invoice processing or paid accordingly. */
  lemma ChargedStatus(t: Timing, s: State, a: Id)
    requires RowsOk(s.db.invoices, s.db.attempts) && AttemptsFit(s.db.invoices, s.db.attempts)
    requires OutcomesOk(t, s.db.attempts, s.charges, s.now)
    requires a in s.charges && s.charges[a].outcome.Succeeded? && a in s.db.attempts
    ensures s.db.attempts[a].invoice in s.db.invoices
    ensures s.db.attempts[a].amount == s.db.invoices[s.db.attempts[a].invoice].total
    ensures var (attempt, invoice) := (s.db.attempts[a].status, s.db.invoices[s.db.attempts[a].invoice].status);
            || (attempt == AttemptStatus.Pending && invoice == InvoiceStatus.Processing)
            || (attempt == AttemptStatus.Succeeded && invoice == InvoiceStatus.Paid)
  {
  }

  lemma InvMeansOneCharge(t: Timing, s: State)
    requires Inv(t, s)
    ensures NoDoubleCharge(s)
    ensures forall a :: a in s.charges && s.charges[a].outcome.Succeeded? ==>
              && a in s.db.attempts && TookMoney(s, a, s.db.attempts[a].invoice)
              && var invoice := s.db.attempts[a].invoice;
                 && invoice in s.db.invoices
                 && s.charges[a].amount == s.db.invoices[invoice].total
                 && s.db.invoices[invoice].status in {InvoiceStatus.Processing, InvoiceStatus.Paid}
  {
    hide RowsOk, AttemptsFit, InvoicesBacked, OutcomesOk, NetworkOk, WorkOk, ScheduleOk, KeysOk, EventsOk, MoneyOk;
    forall a | a in s.charges && s.charges[a].outcome.Succeeded? && a in s.db.attempts {
      ChargedStatus(t, s, a);
    }
    forall i, a, b | TookMoney(s, a, i) && TookMoney(s, b, i) ensures a == b {
      assert Clash(s.db.attempts[a], s.db.attempts[b]);
    }
  }

  /** Every successful charge is for one invoice's total, that invoice is processing or paid, and no other
      charge on it succeeded: an open or void invoice has taken nothing. */
  lemma ChargedAtMostOnce(t: Timing, s: State)
    requires Sound(t) && Reachable(t, s)
    ensures NoDoubleCharge(s)
    ensures forall a :: a in s.charges && s.charges[a].outcome.Succeeded? ==>
              && a in s.db.attempts && TookMoney(s, a, s.db.attempts[a].invoice)
              && var invoice := s.db.attempts[a].invoice;
                 && invoice in s.db.invoices
                 && s.charges[a].amount == s.db.invoices[invoice].total
                 && s.db.invoices[invoice].status in {InvoiceStatus.Processing, InvoiceStatus.Paid}
  {
    ReachableInv(t, s);
    InvMeansOneCharge(t, s);
  }

  /** A paid invoice has been charged exactly its total, and the reference on its attempt is the PSP's. */
  lemma PaidMeansCharged(t: Timing, s: State, invoice: Id)
    requires Sound(t) && Reachable(t, s) && invoice in s.db.invoices
    requires s.db.invoices[invoice].status == InvoiceStatus.Paid
    ensures exists a :: && TookMoney(s, a, invoice) && s.charges[a].amount == s.db.invoices[invoice].total
                        && s.db.attempts[a].status == AttemptStatus.Succeeded
                        && s.db.attempts[a].pspRef == Some(s.charges[a].outcome.pspRef)
  {
    ReachableInv(t, s);
    assert HasAttempt(s.db.attempts, invoice, AttemptStatus.Succeeded);
    var a :| a in s.db.attempts && s.db.attempts[a].invoice == invoice
             && s.db.attempts[a].status == AttemptStatus.Succeeded;
    assert TookMoney(s, a, invoice);
  }

  // ----- psp_no_record

  predicate ConcludesNoRecord(due: Work, reply: HttpReply)
    requires due.Due?
  {
    AfterLook(due, ReadLookup(reply)) == Settling(due.attempt, Settlement.Failed("psp_no_record"))
  }

  lemma NoRecordIsClosed(t: Timing, s: State, due: Work, reply: HttpReply)
    requires Timely(t) && Outside(t, s) && due in s.work && due.Due? && ConcludesNoRecord(due, reply)
    requires MayAnswerLookup(s.charges, due.attempt, s.now, reply)
    ensures due.attempt in s.db.attempts && Closed(t, s.db.attempts[due.attempt], s.now) && due.attempt !in s.charges
    ensures reply.Http? && reply.status == 404 && due.pastGrace
  {
    assert WorkItemOk(t, due, s.db.attempts, s.charges, s.now);
  }

  /** When a worker concludes that the PSP has no record, the PSP itself has said so, past the grace window, and it has
      none then and in every later state, however stale the worker is by the time it settles. */
  lemma NoRecordStaysNoRecord(t: Timing, s: State, due: Work, reply: HttpReply, s': State)
    requires Sound(t) && Reachable(t, s) && Enabled(t, s, Look(due, reply)) && ConcludesNoRecord(due, reply)
    requires Leads(t, s, s')
    ensures reply.Http? && reply.status == 404 && due.pastGrace
    ensures due.attempt !in s.charges && due.attempt !in s'.charges
  {
    ReachableInv(t, s);
    NoRecordIsClosed(t, s, due, reply);
    LeadsEvolves(t, s, s');
  }

  /** Whatever reply a handler or a reconciler gets, it settles an attempt as the PSP has it recorded or not at all; a
      reconciler may also fail it for want of a record, past the grace window and on the PSP's own 404. In particular a
      reply that is lost, of another status or does not parse settles nothing. */
  lemma RepliesSettleTruthfully(t: Timing, s: State, step: Step, settlement: Settlement)
    requires Enabled(t, s, step)
    requires (step.HandlerHears? && Settling(step.attempt, settlement) in AfterCharge(step.attempt, ReadCharge(step.reply)))
             || (step.Look? && AfterLook(step.due, ReadLookup(step.reply)) == Settling(step.due.attempt, settlement))
    ensures step.reply.Http?
    ensures var a := if step.HandlerHears? then step.attempt else step.due.attempt;
            || (step.reply == Http(200, Some(Outcome(settlement))) && a in s.charges && s.charges[a].outcome == settlement)
            || (step.Look? && step.reply.status == 404 && step.due.pastGrace && a !in s.charges
                && settlement == Settlement.Failed("psp_no_record"))
  {
  }

  /** An attempt that failed for want of a record is never charged, before or after. */
  lemma NoRecordMeansNoCharge(t: Timing, s: State, attempt: Id, s': State)
    requires Sound(t) && Reachable(t, s) && Leads(t, s, s')
    requires attempt in s.db.attempts && s.db.attempts[attempt].failureCode == Some("psp_no_record")
    ensures attempt !in s.charges && attempt !in s'.charges
  {
    ReachableInv(t, s);
    LeadsEvolves(t, s, s');
  }

  // ----- Settlement

  /** A settled attempt says what the PSP says, and its row never changes again. */
  lemma SettledForGood(t: Timing, s: State, attempt: Id, s': State)
    requires Sound(t) && Reachable(t, s) && Leads(t, s, s')
    requires attempt in s.db.attempts && s.db.attempts[attempt].status != AttemptStatus.Pending
    ensures attempt in s'.db.attempts && s'.db.attempts[attempt] == s.db.attempts[attempt]
    ensures attempt in s'.charges ==> OutcomeOf(s.db.attempts[attempt]) == Some(s'.charges[attempt].outcome)
    ensures attempt !in s'.charges ==> s.db.attempts[attempt].failureCode == Some("psp_no_record")
  {
    ReachableInv(t, s);
    LeadsEvolves(t, s, s');
  }

  lemma StoredForSettled(attempts: map<Id, Attempt>, keys: map<KeyId, KeyRow>, attempt: Id)
    requires KeysOk(attempts, keys) && attempt in attempts && attempts[attempt].status != AttemptStatus.Pending
    ensures StoredFor(keys, attempt).Some?
    ensures Answers(StoredFor(keys, attempt).value, attempts[attempt])
    ensures forall k :: k in keys && keys[k].attempt == Some(attempt) ==> keys[k].response == StoredFor(keys, attempt)
  {
    assert HasKey(keys, attempt);
    var k :| k in keys && keys[k].attempt == Some(attempt);
    assert KeyRowOk(k.business, keys[k], attempts);
  }

  /** What completing an attempt's key stores is what is then read back for it. */
  lemma CompletedIsStored(attempts: map<Id, Attempt>, keys: map<KeyId, KeyRow>, attempt: Id, reply: Reply)
    requires KeysOk(attempts, keys) && attempt in attempts && attempts[attempt].status == AttemptStatus.Pending
    ensures StoredFor(CompletedFor(keys, attempt, reply), attempt) == Some(reply)
  {
    assert HasKey(keys, attempt);
    var k :| k in keys && keys[k].attempt == Some(attempt);
    assert KeyRowOk(k.business, keys[k], attempts);
    var keys' := CompletedFor(keys, attempt, reply);
    assert k in keys' && keys'[k].attempt == Some(attempt) && keys'[k].response == Some(reply);
    assert forall l :: l in keys' && keys'[l].attempt == Some(attempt) ==> l == k;
  }

  lemma SettleStores(db: Db, attempt: Id, settlement: Settlement, now: Time)
    requires RowsOk(db.invoices, db.attempts) && Agree(db.invoices, db.attempts) && KeysOk(db.attempts, db.keys)
    requires attempt in db.attempts
    ensures var (db', reply) := Settle(db, attempt, settlement, now);
            && reply.Ok?
            && attempt in db'.attempts && db'.attempts[attempt].status != AttemptStatus.Pending
            && StoredFor(db'.keys, attempt) == Some(reply.value)
            && Answers(reply.value, db'.attempts[attempt])
  {
    if Settleable(db, attempt) {
      SettleApplies(db, attempt, settlement);
      CompletedIsStored(db.attempts, db.keys, attempt, ApplySettlement(db, attempt, settlement, now).1);
    } else {
      StoredForSettled(db.attempts, db.keys, attempt);
    }
  }

  /** A settlement never takes an "invariant violated" branch, and what it returns is what is then stored. */
  lemma SettleReturnsStored(t: Timing, s: State, work: Work)
    requires Sound(t) && Reachable(t, s) && Enabled(t, s, SettleAttempt(work))
    ensures var (db, reply) := Settle(s.db, work.attempt, work.settlement, s.now);
            && reply.Ok?
            && work.attempt in db.attempts && db.attempts[work.attempt].status != AttemptStatus.Pending
            && StoredFor(db.keys, work.attempt) == Some(reply.value)
            && Answers(reply.value, db.attempts[work.attempt])
  {
    ReachableInv(t, s);
    assert WorkItemOk(t, work, s.db.attempts, s.charges, s.now);
    SettleStores(s.db, work.attempt, work.settlement, s.now);
  }

  /** Confluence: whoever settles an attempt, whenever and with whatever answer in hand, gets the same reply. */
  lemma SettlementIsConfluent(t: Timing, s: State, work: Work, s': State, work': Work)
    requires Sound(t) && Reachable(t, s) && Enabled(t, s, SettleAttempt(work))
    requires Leads(t, Next(t, s, SettleAttempt(work)), s')
    requires Enabled(t, s', SettleAttempt(work')) && work'.attempt == work.attempt
    ensures Settle(s'.db, work.attempt, work'.settlement, s'.now) ==
            (s'.db, Settle(s.db, work.attempt, work.settlement, s.now).1)
  {
    var next := Next(t, s, SettleAttempt(work));
    ReachableInv(t, s);
    SettleReturnsStored(t, s, work);
    SettleKeepsInv(t, s, work);
    LeadsEvolves(t, next, s');
    StoredForSettled(next.db.attempts, next.db.keys, work.attempt);
    StoredForSettled(s'.db.attempts, s'.db.keys, work.attempt);
    assert HasKey(next.db.keys, work.attempt);
    var k :| k in next.db.keys && next.db.keys[k].attempt == Some(work.attempt);
    assert s'.db.keys[k].response == next.db.keys[k].response;
  }

  // ----- Idempotency keys

  /** A visible key holds an answer or names a pending attempt; its answer, once there, is its answer for good. */
  lemma KeysAreWriteOnce(t: Timing, s: State, key: KeyId, s': State)
    requires Sound(t) && Reachable(t, s) && Leads(t, s, s') && key in s.db.keys
    ensures var row := s.db.keys[key];
            && (row.response.Some? <==> row.attempt.None?
                                        || (row.attempt.value in s.db.attempts
                                            && s.db.attempts[row.attempt.value].status != AttemptStatus.Pending))
            && (row.response.None? ==> row.attempt.Some? && row.attempt.value in s.db.attempts)
            && key in s'.db.keys
            && s'.db.keys[key].fingerprint == row.fingerprint
            && s'.db.keys[key].attempt == row.attempt
            && (row.response.Some? ==> s'.db.keys[key].response == row.response)
  {
    ReachableInv(t, s);
    assert KeyRowOk(key.business, s.db.keys[key], s.db.attempts);
    LeadsEvolves(t, s, s');
  }

  lemma KeyIsOk(t: Timing, s: State, key: KeyId)
    requires Inv(t, s) && key in s.db.keys
    ensures KeyRowOk(key.business, s.db.keys[key], s.db.attempts)
    ensures forall a :: a in s.db.attempts ==> AttemptRow(s.db.attempts[a])
  {
  }

  /** What a client was told stays true. A stored 200 means that the attempt took the money and its invoice was paid;
      a stored 402 means that it did not, and never will, and carries the PSP's reason. */
  lemma StoredAnswersStayTrue(t: Timing, s: State, key: KeyId, s': State)
    requires Sound(t) && Reachable(t, s) && Leads(t, s, s')
    requires key in s.db.keys && s.db.keys[key].attempt.Some? && s.db.keys[key].response.Some?
    ensures var (a, reply) := (s.db.keys[key].attempt.value, s.db.keys[key].response.value);
            && a in s.db.attempts
            && reply.details.Resources?
            && reply.details.attempt == s.db.attempts[a]
            && reply.details.invoice.total == s.db.attempts[a].amount
            && (reply.status == 200 <==> a in s'.charges && s'.charges[a].outcome.Succeeded?)
            && (reply.status == 200 ==> reply.code.None? && reply.details.invoice.status == InvoiceStatus.Paid)
            && (reply.status != 200 ==>
                  && reply.status == 402
                  && reply.details.invoice.status == InvoiceStatus.Open
                  && reply.code == Some(if a in s'.charges then s'.charges[a].outcome.code else "psp_no_record"))
  {
    hide Inv, DbEvolves, Evolves;
    ReachableInv(t, s);
    KeyIsOk(t, s, key);
    SettledForGood(t, s, s.db.keys[key].attempt.value, s');
  }

  /** A key that was used before changes no row and sends nothing. A different request is refused; the same one
      gets the stored answer, or the attempt that is still pending: "key in use" is never the answer. */
  lemma RepeatsAreInert(t: Timing, s: State, key: KeyId, fingerprint: Fingerprint, attempt: Id, started: Time)
    requires Sound(t) && Reachable(t, s) && key in s.db.keys
    requires Enabled(t, s, ClaimInvoice(key, fingerprint, attempt, started))
    ensures Next(t, s, ClaimInvoice(key, fingerprint, attempt, started)) == s
    ensures var (db, result) := Claim(s.db, key, fingerprint, attempt, started, t.config.FirstLook());
            && db == s.db
            && (s.db.keys[key].fingerprint != fingerprint ==> result == Refused(Reply(422, Some("idempotency_key_reused"), NoDetails)))
            && (s.db.keys[key].fingerprint == fingerprint ==>
                  || (s.db.keys[key].response.Some? && result == Replay(s.db.keys[key].response.value))
                  || (result.AwaitingSettlement? && Settleable(s.db, result.attempt)
                      && s.db.keys[key].attempt == Some(result.attempt)))
  {
    ReachableInv(t, s);
    assert KeyRowOk(key.business, s.db.keys[key], s.db.attempts);
  }

  /** The 202 path reads the attempt and then its invoice. If the attempt has settled by the first read, the
      status and error code are those of the stored answer, whatever happens to the invoice before the second. */
  lemma PendingResponseAgrees(t: Timing, s: State, attempt: Id, s': State)
    requires Sound(t) && Reachable(t, s) && Leads(t, s, s') && attempt in s.db.attempts
    ensures s.db.attempts[attempt].invoice in s'.db.invoices
    ensures var row := s.db.attempts[attempt];
            var reply := AttemptReply(s'.db.invoices[row.invoice], row);
            && reply.details == Resources(s'.db.invoices[row.invoice], row)
            && (row.status == AttemptStatus.Pending <==> reply.status == 202)
            && (row.status == AttemptStatus.Pending ==> reply.code.None?)
            && (row.status != AttemptStatus.Pending ==>
                  && StoredFor(s.db.keys, attempt).Some?
                  && reply.status == StoredFor(s.db.keys, attempt).value.status
                  && reply.code == StoredFor(s.db.keys, attempt).value.code)
  {
    ReachableInv(t, s);
    LeadsEvolves(t, s, s');
    if s.db.attempts[attempt].status != AttemptStatus.Pending {
      StoredForSettled(s.db.attempts, s.db.keys, attempt);
    }
  }

  predicate SentFor(s: State, key: KeyId, request: nat) {
    request < |s.sends| && key in s.db.keys && s.db.keys[key].attempt == Some(s.sends[request].attempt)
  }

  /** Over a whole run, at most one charge request is sent for any key, and none without one. */
  lemma OneRequestPerKey(t: Timing, s: State)
    requires Sound(t) && Reachable(t, s)
    ensures forall j :: 0 <= j < |s.sends| ==> HasKey(s.db.keys, s.sends[j].attempt)
    ensures forall key, j, k :: SentFor(s, key, j) && SentFor(s, key, k) ==> j == k
  {
    ReachableInv(t, s);
  }

  // ----- Agreement and the outbox

  /** Processing means exactly one pending attempt, paid exactly one succeeded attempt, and open or void neither;
      every attempt is for its invoice's total. */
  lemma StatusesAgree(t: Timing, s: State, invoice: Id)
    requires Sound(t) && Reachable(t, s) && invoice in s.db.invoices
    ensures var status := s.db.invoices[invoice].status;
            var pending := set a | a in s.db.attempts && s.db.attempts[a].invoice == invoice
                                   && s.db.attempts[a].status == AttemptStatus.Pending;
            var succeeded := set a | a in s.db.attempts && s.db.attempts[a].invoice == invoice
                                     && s.db.attempts[a].status == AttemptStatus.Succeeded;
            && (status == InvoiceStatus.Processing <==> pending != {})
            && (status == InvoiceStatus.Paid <==> succeeded != {})
            && |pending| <= 1 && |succeeded| <= 1
    ensures forall a :: a in s.db.attempts && s.db.attempts[a].invoice == invoice ==>
              var row := s.db.attempts[a];
              && row.amount == s.db.invoices[invoice].total > 0
              && row.business == s.db.invoices[invoice].business
              && (row.status == AttemptStatus.Succeeded <==> row.pspRef.Some?)
              && (row.status == AttemptStatus.Failed <==> row.failureCode.Some?)
              && (row.status == AttemptStatus.Pending <==> row.settledAt.None?)
              && (row.status == AttemptStatus.Pending <==> row.reconcileAfter.Some?)
    ensures s.db.invoices[invoice].status == InvoiceStatus.Paid <==> s.db.invoices[invoice].paidAt.Some?
    ensures s.db.invoices[invoice].status == InvoiceStatus.Void <==> s.db.invoices[invoice].voidedAt.Some?
  {
    ReachableInv(t, s);
    AtMostOne(s.db.attempts, invoice, AttemptStatus.Pending);
    AtMostOne(s.db.attempts, invoice, AttemptStatus.Succeeded);
  }

  lemma AtMostOne(attempts: map<Id, Attempt>, invoice: Id, status: AttemptStatus)
    requires NoClash(attempts) && status != AttemptStatus.Failed
    ensures var matching := set a | a in attempts && attempts[a].invoice == invoice && attempts[a].status == status;
            |matching| <= 1 && (matching != {} <==> HasAttempt(attempts, invoice, status))
  {
    var matching := set a | a in attempts && attempts[a].invoice == invoice && attempts[a].status == status;
    assert forall a :: a in matching ==> HasAttempt(attempts, invoice, status);
    if HasAttempt(attempts, invoice, status) {
      var a :| a in attempts && attempts[a].invoice == invoice && attempts[a].status == status;
      assert a in matching;
      assert matching == {a} by {
        forall b | b in matching ensures b == a {
          assert Clash(attempts[a], attempts[b]);
        }
      }
    }
  }

  /** The committed events of an invoice read created, payment_failed*, then at most one of paid or voided; there
      are as many failures as failed attempts, and the ending is the stored status, up to open and processing. */
  lemma OutboxRefinesInvoice(t: Timing, s: State, invoice: Id)
    requires Sound(t) && Reachable(t, s)
    ensures ExpectedPast(s.db.invoices, s.db.attempts, invoice) != Broken
    ensures Kinds(s.db.events, invoice) == Shape(ExpectedPast(s.db.invoices, s.db.attempts, invoice))
  {
    ReachableInv(t, s);
    FoldGivesShape(s.db.events, invoice);
    assert Fold(s.db.events, invoice) == ExpectedPast(s.db.invoices, s.db.attempts, invoice);
  }
}
