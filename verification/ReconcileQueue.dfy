/** The reconciler's queue: pending attempts in order of reconcile_after, taken sixteen at a time by any number of
    workers that skip what is locked. No due attempt is overtaken for ever. */
module ReconcileQueue {
  import opened Common
  import opened Config
  import opened Sql
  import opened Pagination
  import opened Schema
  import Psp
  import opened Transactions
  import opened PaymentProtocol
  import opened PaymentInvariant
  import opened PaymentPreservation
  import opened PaymentTheorems

  /** The attempt is due: a pass that does not find it locked may lease it. */
  predicate Waiting(s: State, attempt: Id) {
    attempt in s.db.attempts && IsDue(s.db.attempts[attempt], s.now)
  }

  /** The attempts that may be leased before this one. */
  ghost function Ahead(attempts: map<Id, Attempt>, attempt: Id): set<Id>
    requires attempt in attempts && attempts[attempt].reconcileAfter.Some?
  {
    set a | a in attempts && a != attempt && attempts[a].reconcileAfter.Some?
            && attempts[a].reconcileAfter.value <= attempts[attempt].reconcileAfter.value
  }

  /** The step leases, settles or reschedules this attempt. */
  predicate Touches(step: Step, attempt: Id) {
    || (step.ClaimDue? && attempt in step.batch)
    || (step.Reschedule? && step.work.attempt == attempt)
    || (step.SettleAttempt? && step.work.attempt == attempt)
  }

  /** A pass that finds none of these attempts locked. */
  predicate Serves(step: Step, wanted: set<Id>) {
    step.ClaimDue? && step.locked !! wanted
  }

  /** A claim that commits so late that its attempt enters the queue at or before `slot`. */
  predicate Jumps(t: Timing, step: Step, slot: Time) {
    step.ClaimInvoice? && step.started + t.config.FirstLook() <= slot
  }

  function Passes(steps: seq<Step>, wanted: set<Id>): nat
    decreases |steps|
  {
    if steps == [] then 0 else (if Serves(steps[0], wanted) then 1 else 0) + Passes(steps[1..], wanted)
  }

  function LateClaims(t: Timing, steps: seq<Step>, slot: Time): nat
    decreases |steps|
  {
    if steps == [] then 0 else (if Jumps(t, steps[0], slot) then 1 else 0) + LateClaims(t, steps[1..], slot)
  }

  // ----- Where an attempt's next look is written

  /** `next` leaves an attempt's next look alone, ends it, or puts it after now. */
  predicate Later(attempts: map<Id, Attempt>, next: map<Id, Attempt>, attempt: Id, now: Time)
    requires attempt in next
  {
    || next[attempt].reconcileAfter.None?
    || (attempt in attempts && next[attempt].reconcileAfter == attempts[attempt].reconcileAfter)
    || now < next[attempt].reconcileAfter.value
  }

  lemma SettleWritesLater(db: Db, settled: Id, settlement: Psp.Settlement, now: Time, attempt: Id)
    requires attempt in Transactions.Settle(db, settled, settlement, now).0.attempts
    ensures Later(db.attempts, Transactions.Settle(db, settled, settlement, now).0.attempts, attempt, now)
    ensures attempt in db.attempts
    ensures attempt != settled ==>
              Transactions.Settle(db, settled, settlement, now).0.attempts[attempt] == db.attempts[attempt]
  {
  }

  lemma RescheduleWritesLater(db: Db, rescheduled: Id, checks: nat, now: Time, attempt: Id)
    requires attempt in Rescheduled(db, rescheduled, checks, now).attempts
    ensures Later(db.attempts, Rescheduled(db, rescheduled, checks, now).attempts, attempt, now)
    ensures attempt in db.attempts
    ensures attempt != rescheduled ==>
              Rescheduled(db, rescheduled, checks, now).attempts[attempt] == db.attempts[attempt]
  {
  }

  /** Every write to reconcile_after lands strictly after now, except that of a claim that takes longer than its own
      first look to commit. */
  lemma WritesAreLater(t: Timing, s: State, step: Step, attempt: Id)
    requires Enabled(t, s, step) && attempt in Next(t, s, step).db.attempts
    ensures Later(s.db.attempts, Next(t, s, step).db.attempts, attempt, s.now)
            <==> !(Jumps(t, step, s.now) && attempt == step.attempt && attempt !in s.db.attempts)
    ensures attempt !in s.db.attempts ==>
              && step.ClaimInvoice? && attempt == step.attempt
              && Next(t, s, step).db.attempts[attempt].reconcileAfter == Some(step.started + t.config.FirstLook())
    ensures attempt in s.db.attempts && !Touches(step, attempt) ==>
              Next(t, s, step).db.attempts[attempt] == s.db.attempts[attempt]
  {
    if step.SettleAttempt? {
      SettleWritesLater(s.db, step.work.attempt, step.work.settlement, s.now, attempt);
    } else if step.Reschedule? {
      RescheduleWritesLater(s.db, step.work.attempt, step.work.checks, s.now, attempt);
    } else if step.ClaimInvoice? {
      ClaimWrites(t, s, step, attempt);
    } else if !step.ClaimDue? {
      AttemptsUntouched(t, s, step);
    }
  }

  lemma ClaimWrites(t: Timing, s: State, step: Step, attempt: Id)
    requires step.ClaimInvoice? && Enabled(t, s, step) && attempt in Next(t, s, step).db.attempts
    ensures attempt in s.db.attempts ==> Next(t, s, step).db.attempts[attempt] == s.db.attempts[attempt]
    ensures attempt !in s.db.attempts ==>
              && attempt == step.attempt
              && Next(t, s, step).db.attempts[attempt].reconcileAfter == Some(step.started + t.config.FirstLook())
  {
  }

  lemma VoidLeavesAttempts(db: Db, business: Id, invoice: Id, now: Time)
    ensures Voided(db, business, invoice, now).0.attempts == db.attempts
  {
  }

  lemma ExplainLeavesAttempts(db: Db, key: KeyId, fingerprint: Fingerprint)
    ensures Explained(db, key, fingerprint).0.attempts == db.attempts
  {
  }

  lemma AttemptsUntouched(t: Timing, s: State, step: Step)
    requires Enabled(t, s, step)
    requires !step.ClaimInvoice? && !step.ClaimDue? && !step.Reschedule? && !step.SettleAttempt?
    ensures Next(t, s, step).db.attempts == s.db.attempts
  {
    hide Transactions.Settle, Rescheduled, ApplyClaim, Psp.Record, Psp.Lookup, Psp.ReadLookup, AfterLook, Leased,
         CasMatches, Find, IsDue, PastGrace, Explained, Voided;
    if step.Void? {
      VoidLeavesAttempts(s.db, step.business, step.invoice, s.now);
    } else if step.Explain? {
      ExplainLeavesAttempts(s.db, step.key, s.explaining[step.key]);
    } else if !step.CreateInvoice? && !step.Look? {
      NetworkStepFrame(t, s, step);
    }
  }

  // ----- No starvation

  /** A pass that does not find a due attempt locked, and does not take it, takes sixteen that are ahead of it. */
  lemma PassTakesSixteen(s: State, batch: seq<Id>, locked: set<Id>, attempt: Id)
    requires Waiting(s, attempt) && IsFirst(DueColumn(s.db.attempts, locked, s.now), BATCH_SIZE, batch)
    requires attempt !in locked && attempt !in batch
    ensures var taken := set a | a in batch; |taken| == BATCH_SIZE && taken <= Ahead(s.db.attempts, attempt)
  {
    var due := DueColumn(s.db.attempts, locked, s.now);
    assert attempt in due;
    if |due| <= BATCH_SIZE {
      AllFetched(due, batch);
      assert false;
    }
    Distinct(batch);
    forall a | a in batch ensures a in Ahead(s.db.attempts, attempt) {
      var j :| 0 <= j < |batch| && batch[j] == a;
      assert due[batch[j]] <= due[attempt];
    }
  }

  lemma PassShortensAhead(t: Timing, s: State, batch: seq<Id>, locked: set<Id>, attempt: Id)
    requires Waiting(s, attempt) && Enabled(t, s, ClaimDue(batch, locked)) && attempt !in locked && attempt !in batch
    ensures |Ahead(LeaseAll(s.db.attempts, batch, s.now, RECONCILE_LEASE), attempt)| + BATCH_SIZE
              == |Ahead(s.db.attempts, attempt)|
  {
    PassTakesSixteen(s, batch, locked, attempt);
    var taken := set a | a in batch;
    assert Ahead(LeaseAll(s.db.attempts, batch, s.now, RECONCILE_LEASE), attempt) == Ahead(s.db.attempts, attempt) - taken;
  }

  lemma Subset(part: set<Id>, whole: set<Id>)
    requires part <= whole
    ensures |part| <= |whole|
  {
    assert whole == part + (whole - part);
  }

  lemma StaysWaiting(t: Timing, s: State, step: Step, attempt: Id)
    requires Waiting(s, attempt) && Enabled(t, s, step) && !Touches(step, attempt)
    ensures var next := Next(t, s, step);
            Waiting(next, attempt) && next.db.attempts[attempt] == s.db.attempts[attempt]
  {
    AttemptsRemain(t, s, step, attempt);
    WritesAreLater(t, s, step, attempt);
    OnlyReceiptsCharge(t, s, step);
  }

  lemma AttemptsRemain(t: Timing, s: State, step: Step, attempt: Id)
    requires Enabled(t, s, step) && attempt in s.db.attempts
    ensures attempt in Next(t, s, step).db.attempts
  {
    if !step.ClaimInvoice? && !step.ClaimDue? && !step.Reschedule? && !step.SettleAttempt? {
      AttemptsUntouched(t, s, step);
    }
  }

  lemma NobodyJoins(t: Timing, s: State, step: Step, attempt: Id, a: Id)
    requires Waiting(s, attempt) && Enabled(t, s, step) && !Touches(step, attempt)
    requires attempt in Next(t, s, step).db.attempts && Next(t, s, step).db.attempts[attempt] == s.db.attempts[attempt]
    requires a in Ahead(Next(t, s, step).db.attempts, attempt) && a !in Ahead(s.db.attempts, attempt)
    ensures Jumps(t, step, s.db.attempts[attempt].reconcileAfter.value) && a == step.attempt
  {
    WritesAreLater(t, s, step, a);
  }

  lemma StepShortensAhead(t: Timing, s: State, step: Step, attempt: Id)
    requires Waiting(s, attempt) && Enabled(t, s, step) && !Touches(step, attempt)
    ensures var next := Next(t, s, step);
            && Waiting(next, attempt) && next.db.attempts[attempt] == s.db.attempts[attempt]
            && |Ahead(next.db.attempts, attempt)| + (if Serves(step, {attempt}) then BATCH_SIZE else 0)
               <= |Ahead(s.db.attempts, attempt)|
                  + if Jumps(t, step, s.db.attempts[attempt].reconcileAfter.value) then 1 else 0
  {
    StaysWaiting(t, s, step, attempt);
    var next := Next(t, s, step);
    if Serves(step, {attempt}) {
      PassShortensAhead(t, s, step.batch, step.locked, attempt);
    } else {
      var (before, after) := (Ahead(s.db.attempts, attempt), Ahead(next.db.attempts, attempt));
      forall a | a in after && a !in before
        ensures Jumps(t, step, s.db.attempts[attempt].reconcileAfter.value) && a == step.attempt
      {
        NobodyJoins(t, s, step, attempt, a);
      }
      if step.ClaimInvoice? && Jumps(t, step, s.db.attempts[attempt].reconcileAfter.value) {
        Subset(after, before + {step.attempt});
      } else {
        Subset(after, before);
      }
    }
  }

  /** While a due attempt is not taken up, every pass that does not find it locked takes sixteen of those ahead of it,
      and nobody joins them but claims that took too long to commit: with k ahead, at most (k + late claims) / 16 such
      passes go by, and the next one leases it. Passes that do find it locked may come and go. */
  lemma {:induction false} NoStarvation(t: Timing, s: State, steps: seq<Step>, attempt: Id)
    requires Run(t, s, steps).Some? && Waiting(s, attempt)
    requires forall j :: 0 <= j < |steps| ==> !Touches(steps[j], attempt)
    ensures var last := Run(t, s, steps).value;
            var late := LateClaims(t, steps, s.db.attempts[attempt].reconcileAfter.value);
            && Waiting(last, attempt) && last.db.attempts[attempt] == s.db.attempts[attempt]
            && |Ahead(last.db.attempts, attempt)| + 16 * Passes(steps, {attempt})
               <= |Ahead(s.db.attempts, attempt)| + late
            && Passes(steps, {attempt}) <= (|Ahead(s.db.attempts, attempt)| + late) / 16
    decreases |steps|
  {
    if steps != [] {
      assert !Touches(steps[0], attempt);
      StepShortensAhead(t, s, steps[0], attempt);
      NoStarvation(t, Next(t, s, steps[0]), steps[1..], attempt);
    }
  }

  // ----- The schedule

  /** A pending attempt is never put off by more than a minute, nor looked at before its request has had its time. */
  lemma NeverPutOffLong(t: Timing, s: State, attempt: Id)
    requires Sound(t) && Reachable(t, s) && Settleable(s.db, attempt)
    ensures var row := s.db.attempts[attempt];
            && row.reconcileAfter.Some?
            && row.createdAt + t.config.pspTimeout + SECOND <= row.reconcileAfter.value <= s.now + 60 * SECOND
  {
    ReachableInv(t, s);
    assert ScheduleRow(t, s.db.attempts[attempt], s.now) && AttemptRow(s.db.attempts[attempt]);
  }

  /** A worker backs off by the number of times the attempt has been leased: the count it carries is one of them, and
      its lease was taken only after the first look was due. */
  lemma ChecksCountLeases(t: Timing, s: State, work: Work)
    requires Sound(t) && Reachable(t, s) && work in s.work && !work.Settling?
    ensures work.attempt in s.db.attempts
    ensures 1 <= work.checks <= s.db.attempts[work.attempt].reconcileCount
    ensures s.db.attempts[work.attempt].createdAt + t.config.FirstLook() <= s.now
  {
    ReachableInv(t, s);
    assert WorkItemOk(t, work, s.db.attempts, s.charges, s.now);
  }
}
