/** Every run of the reconciler settles what it can: once the PSP's answers are definitive, enough passes that are
    carried out settle every pending attempt, whatever else happens meanwhile. */
module ReconcileProgress {
  import opened Common
  import opened Config
  import opened Sql
  import opened Schema
  import opened InvoiceState
  import opened Psp
  import opened Transactions
  import opened PaymentProtocol
  import opened PaymentInvariant
  import opened PaymentPreservation
  import opened PaymentTheorems
  import opened PaymentLiveness
  import opened ReconcileQueue

  // ----- What has to hold of an attempt, and of a run

  /** The PSP's answer about this attempt is definitive from now on: the grace window is over, and a charge that was
      recorded has settled. */
  predicate Conclusive(t: Timing, s: State, attempt: Id) {
    && attempt in s.db.attempts
    && PastGrace(s.db.attempts[attempt], s.now, t.config.notFoundGrace)
    && s.db.attempts[attempt].createdAt + t.config.FirstLook() <= s.now
    && (attempt in s.charges ==> s.charges[attempt].settlesAt <= s.now)
  }

  /** No worker still holds what it learned of this attempt before its grace window was over. */
  ghost predicate NothingStale(s: State, attempt: Id) {
    forall w :: w in s.work && w.attempt == attempt ==> w.Settling? || (w.Due? && w.pastGrace)
  }

  ghost predicate InHand(s: State, attempt: Id) {
    exists w :: w in s.work && w.attempt == attempt
  }

  /** A worker holds it, or it is settled. */
  ghost predicate TakenUp(s: State, attempt: Id) {
    attempt in s.db.attempts && (InHand(s, attempt) || s.db.attempts[attempt].status != AttemptStatus.Pending)
  }

  /** The PSP's own answer: an outcome, or that it has no record. */
  predicate Definite(reply: HttpReply) {
    reply.Http? && (reply.status == 404 || (reply.status == 200 && reply.body.Some? && reply.body.value.Outcome?))
  }

  /** The step loses nothing about this attempt: no crash of a worker that holds it, no lookup without an answer. */
  predicate Definitive(step: Step, attempt: Id) {
    && !(step.Crash? && step.work.attempt == attempt)
    && (step.Look? && step.due.attempt == attempt ==> Definite(step.reply))
  }

  ghost predicate AllDefinitive(steps: seq<Step>, wanted: set<Id>) {
    forall j, a :: 0 <= j < |steps| && a in wanted ==> Definitive(steps[j], a)
  }

  /** Every worker that took up one of these has finished with it. */
  ghost predicate NoneInHand(s: State, wanted: set<Id>) {
    forall w :: w in s.work ==> w.attempt !in wanted
  }

  // ----- One attempt, step by step

  lemma ConclusiveIsClosed(t: Timing, s: State, attempt: Id)
    requires Timely(t) && Conclusive(t, s, attempt)
    ensures Closed(t, s.db.attempts[attempt], s.now)
  {
  }

  lemma ConclusiveStays(t: Timing, s: State, s': State, attempt: Id)
    requires Timely(t) && Evolves(t, s, s') && Conclusive(t, s, attempt)
    ensures Conclusive(t, s', attempt) && Verdict(s', attempt) == Verdict(s, attempt)
  {
    ConclusiveIsClosed(t, s, attempt);
  }

  /** A look at a conclusive attempt settles it. */
  lemma LookSettles(t: Timing, s: State, due: Work, reply: HttpReply)
    requires due.Due? && due.pastGrace && Conclusive(t, s, due.attempt)
    requires MayAnswerLookup(s.charges, due.attempt, s.now, reply) && Definite(reply)
    ensures AfterLook(due, ReadLookup(reply))
              == Settling(due.attempt, Verdict(s, due.attempt))
  {
  }

  lemma LeasesPastGrace(t: Timing, s: State, batch: seq<Id>, locked: set<Id>, attempt: Id)
    requires Enabled(t, s, ClaimDue(batch, locked)) && Conclusive(t, s, attempt)
    ensures var due := DueWork(LeaseAll(s.db.attempts, batch, s.now, RECONCILE_LEASE), batch, s.now, t.config.notFoundGrace);
            && (forall w :: w in due && w.attempt == attempt ==> w.Due? && w.pastGrace)
            && (attempt in batch ==> exists w :: w in due && w.attempt == attempt)
  {
    var due := DueWork(LeaseAll(s.db.attempts, batch, s.now, RECONCILE_LEASE), batch, s.now, t.config.notFoundGrace);
    if attempt in batch {
      var j :| 0 <= j < |batch| && batch[j] == attempt;
      assert due[j] in due && due[j].attempt == attempt;
    }
  }

  /** What a step does to the work in hand. */
  lemma WorkMoves(t: Timing, s: State, step: Step, attempt: Id)
    requires Enabled(t, s, step) && Conclusive(t, s, attempt) && NothingStale(s, attempt) && Definitive(step, attempt)
    ensures NothingStale(Next(t, s, step), attempt)
    ensures InHand(s, attempt) ==>
              InHand(Next(t, s, step), attempt) || (step.SettleAttempt? && step.work.attempt == attempt)
    ensures step.ClaimDue? && attempt in step.batch ==> InHand(Next(t, s, step), attempt)
    ensures step.Reschedule? ==> step.work.attempt != attempt
  {
    var next := Next(t, s, step);
    if step.ClaimDue? {
      LeasesPastGrace(t, s, step.batch, step.locked, attempt);
      if InHand(s, attempt) {
        var w :| w in s.work && w.attempt == attempt;
        assert w in next.work;
      }
    } else if step.Look? {
      LookMoves(t, s, step.due, step.reply, attempt);
    } else if step.HandlerHears? {
      assert forall w :: w in AfterCharge(step.attempt, ReadCharge(step.reply)) ==> w.Settling?;
      KeepsInHand(s, next, attempt);
    } else if step.Reschedule? || step.SettleAttempt? || step.Crash? {
      OthersDrop(t, s, step, attempt);
    } else {
      WorkUnmoved(t, s, step);
    }
  }

  lemma KeepsInHand(s: State, s': State, attempt: Id)
    requires forall w :: w in s.work && w.attempt == attempt ==> w in s'.work
    ensures InHand(s, attempt) ==> InHand(s', attempt)
  {
  }

  lemma LookMoves(t: Timing, s: State, due: Work, reply: HttpReply, attempt: Id)
    requires Enabled(t, s, Look(due, reply)) && Conclusive(t, s, attempt) && NothingStale(s, attempt)
    requires due.attempt == attempt ==> Definite(reply)
    ensures NothingStale(Next(t, s, Look(due, reply)), attempt)
    ensures InHand(s, attempt) ==> InHand(Next(t, s, Look(due, reply)), attempt)
  {
    var next := Next(t, s, Look(due, reply));
    var after := AfterLook(due, ReadLookup(reply));
    assert after in next.work && after.attempt == due.attempt;
    if due.attempt == attempt {
      LookSettles(t, s, due, reply);
    } else {
      KeepsInHand(s, next, attempt);
    }
  }

  lemma OthersDrop(t: Timing, s: State, step: Step, attempt: Id)
    requires Enabled(t, s, step) && NothingStale(s, attempt) && Definitive(step, attempt)
    requires step.Reschedule? || step.SettleAttempt? || step.Crash?
    ensures NothingStale(Next(t, s, step), attempt)
    ensures InHand(s, attempt) ==>
              InHand(Next(t, s, step), attempt) || (step.SettleAttempt? && step.work.attempt == attempt)
    ensures step.Reschedule? ==> step.work.attempt != attempt
  {
    if !(step.SettleAttempt? && step.work.attempt == attempt) {
      KeepsInHand(s, Next(t, s, step), attempt);
    }
  }

  lemma WorkUnmoved(t: Timing, s: State, step: Step)
    requires Enabled(t, s, step)
    requires !step.ClaimDue? && !step.Look? && !step.HandlerHears?
    requires !step.Reschedule? && !step.SettleAttempt? && !step.Crash?
    ensures Next(t, s, step).work == s.work
  {
  }

  /** Taking up a conclusive attempt leads nowhere but to its settlement. */
  lemma StepTakesUp(t: Timing, s: State, step: Step, attempt: Id)
    requires Sound(t) && Inv(t, s) && Enabled(t, s, step)
    requires Conclusive(t, s, attempt) && NothingStale(s, attempt) && Definitive(step, attempt)
    ensures var next := Next(t, s, step);
            && Conclusive(t, next, attempt) && NothingStale(next, attempt)
            && Verdict(next, attempt) == Verdict(s, attempt)
            && (TakenUp(s, attempt) || Touches(step, attempt) ==> TakenUp(next, attempt))
  {
    hide Tables, Outside, MoneyOk;
    StepEvolves(t, s, step);
    ConclusiveStays(t, s, Next(t, s, step), attempt);
    WorkMoves(t, s, step, attempt);
    if step.SettleAttempt? && step.work.attempt == attempt {
      SettledByStep(t, s, step.work);
    }
  }

  lemma SettledByStep(t: Timing, s: State, work: Work)
    requires Inv(t, s) && Enabled(t, s, SettleAttempt(work))
    ensures var next := Next(t, s, SettleAttempt(work));
            && work.attempt in next.db.attempts
            && next.db.attempts[work.attempt].status != AttemptStatus.Pending
  {
    hide NetworkOk, ChargesOk, OutcomesOk, ScheduleOk, EventsOk, EventsOwned, MoneyOk;
    assert WorkItemOk(t, work, s.db.attempts, s.charges, s.now);
    SettleStores(s.db, work.attempt, work.settlement, s.now);
  }

  // ----- One attempt, over a run

  lemma {:induction false} RunTakesUp(t: Timing, s: State, steps: seq<Step>, attempt: Id)
    requires Sound(t) && Inv(t, s) && Run(t, s, steps).Some?
    requires Conclusive(t, s, attempt) && NothingStale(s, attempt)
    requires forall j :: 0 <= j < |steps| ==> Definitive(steps[j], attempt)
    ensures var last := Run(t, s, steps).value;
            && Inv(t, last)
            && Conclusive(t, last, attempt) && NothingStale(last, attempt)
            && Verdict(last, attempt) == Verdict(s, attempt)
            && (TakenUp(s, attempt) || (exists j :: 0 <= j < |steps| && Touches(steps[j], attempt)) ==>
                  TakenUp(last, attempt))
    decreases |steps|
  {
    hide Inv, Conclusive, NothingStale, TakenUp, Verdict, Definitive, Touches, Enabled, Next;
    if steps != [] {
      assert Definitive(steps[0], attempt);
      StepKeepsInv(t, s, steps[0]);
      StepTakesUp(t, s, steps[0], attempt);
      RunTakesUp(t, Next(t, s, steps[0]), steps[1..], attempt);
      if j :| 0 <= j < |steps| && Touches(steps[j], attempt) && j > 0 {
        assert Touches(steps[1..][j - 1], attempt);
      }
    }
  }

  /** An attempt that was taken up and that nobody holds any more is settled, as the PSP decided. */
  lemma FinishedIsSettled(t: Timing, s: State, attempt: Id)
    requires Inv(t, s) && TakenUp(s, attempt) && !InHand(s, attempt)
    ensures OutcomeOf(s.db.attempts[attempt]) == Some(Verdict(s, attempt))
  {
    hide Tables, NetworkOk, ChargesOk, WorkOk, ScheduleOk, MoneyOk;
  }

  // ----- Every run settles

  /** Those that are still pending. */
  ghost function Remaining(s: State, wanted: set<Id>): set<Id> {
    set a | a in wanted && Settleable(s.db, a)
  }

  ghost function DueNow(s: State): set<Id> {
    set a | a in s.db.attempts && IsDue(s.db.attempts[a], s.now)
  }

  /** Of a non-empty set of queued attempts, the one that is looked at last. */
  lemma {:induction false} LastInQueue(attempts: map<Id, Attempt>, some: set<Id>) returns (last: Id)
    requires some != {} && forall a :: a in some ==> a in attempts && attempts[a].reconcileAfter.Some?
    ensures last in some
    ensures forall a :: a in some ==> attempts[a].reconcileAfter.value <= attempts[last].reconcileAfter.value
    decreases some
  {
    last :| last in some;
    if some != {last} {
      var other := LastInQueue(attempts, some - {last});
      if attempts[last].reconcileAfter.value < attempts[other].reconcileAfter.value {
        last := other;
      }
    }
  }

  lemma {:induction false} MorePasses(steps: seq<Step>, wanted: set<Id>, attempt: Id)
    requires attempt in wanted
    ensures Passes(steps, wanted) <= Passes(steps, {attempt})
    decreases |steps|
  {
    if steps != [] {
      MorePasses(steps[1..], wanted, attempt);
    }
  }

  lemma {:induction false} MoreLateClaims(t: Timing, steps: seq<Step>, slot: Time, later: Time)
    requires slot <= later
    ensures LateClaims(t, steps, slot) <= LateClaims(t, steps, later)
    decreases |steps|
  {
    if steps != [] {
      MoreLateClaims(t, steps[1..], slot, later);
    }
  }

  lemma OneAheadIsDue(s: State, attempt: Id, a: Id)
    requires RowsOk(s.db.invoices, s.db.attempts) && Waiting(s, attempt) && a in Ahead(s.db.attempts, attempt)
    ensures a in DueNow(s)
  {
    assert AttemptRow(s.db.attempts[a]);
  }

  lemma AheadIsDue(s: State, attempt: Id)
    requires RowsOk(s.db.invoices, s.db.attempts) && Waiting(s, attempt)
    ensures |Ahead(s.db.attempts, attempt)| + 1 <= |DueNow(s)|
  {
    var ahead := Ahead(s.db.attempts, attempt);
    forall a | a in ahead ensures a in DueNow(s) {
      OneAheadIsDue(s, attempt, a);
    }
    hide RowsOk;
    assert attempt !in ahead && attempt in DueNow(s);
    Subset(ahead + {attempt}, DueNow(s));
  }

  /** If one of these is still pending at the end, then nobody touched it, and it has been waiting throughout. */
  lemma StillPending(t: Timing, s: State, steps: seq<Step>, wanted: set<Id>, attempt: Id)
    requires Sound(t) && Inv(t, s) && Run(t, s, steps).Some?
    requires attempt in wanted && AllDefinitive(steps, wanted) && NoneInHand(Run(t, s, steps).value, wanted)
    requires Conclusive(t, s, attempt) && NothingStale(s, attempt) && (TakenUp(s, attempt) || Waiting(s, attempt))
    ensures var last := Run(t, s, steps).value;
            if Settleable(last.db, attempt) then
              && Waiting(s, attempt)
              && Waiting(last, attempt)
              && |Ahead(last.db.attempts, attempt)| + 16 * Passes(steps, wanted)
                 <= |Ahead(s.db.attempts, attempt)| + LateClaims(t, steps, s.now)
            else
              attempt in last.db.attempts && OutcomeOf(last.db.attempts[attempt]) == Some(Verdict(s, attempt))
  {
    hide Inv, Conclusive, NothingStale;
    assert forall j :: 0 <= j < |steps| ==> Definitive(steps[j], attempt);
    RunTakesUp(t, s, steps, attempt);
    var last := Run(t, s, steps).value;
    assert !InHand(last, attempt);
    if Settleable(last.db, attempt) {
      assert !TakenUp(last, attempt);
      NoStarvation(t, s, steps, attempt);
      MorePasses(steps, wanted, attempt);
      MoreLateClaims(t, steps, s.db.attempts[attempt].reconcileAfter.value, s.now);
    } else {
      ConclusiveIsKnown(t, last, attempt);
      FinishedIsSettled(t, last, attempt);
    }
  }

  lemma ConclusiveIsKnown(t: Timing, s: State, attempt: Id)
    requires Conclusive(t, s, attempt)
    ensures attempt in s.db.attempts
  {
  }

  lemma RowsHold(t: Timing, s: State)
    requires Inv(t, s)
    ensures RowsOk(s.db.invoices, s.db.attempts)
  {
  }

  /** The measure: in every run, each pass that finds none of the wanted attempts locked brings the number of those
      still pending down by sixteen, until none is left, from at most the number of attempts due at the start. The
      rest are settled with what the PSP decided. Only claims that take longer than their own first look to commit can
      delay this, by one place each; nothing else that others do can, whatever they lease, settle or lose. */
  lemma EveryRunSettles(t: Timing, s: State, steps: seq<Step>, wanted: set<Id>)
    requires Sound(t) && Reachable(t, s) && Run(t, s, steps).Some?
    requires AllDefinitive(steps, wanted) && NoneInHand(Run(t, s, steps).value, wanted)
    requires forall a :: a in wanted ==>
               Conclusive(t, s, a) && NothingStale(s, a) && (TakenUp(s, a) || Waiting(s, a))
    ensures var last := Run(t, s, steps).value;
            && (Remaining(last, wanted) != {} ==>
                  |Remaining(last, wanted)| + 16 * Passes(steps, wanted)
                    <= |DueNow(s)| + LateClaims(t, steps, s.now))
            && (forall a :: a in wanted && a !in Remaining(last, wanted) ==>
                  a in last.db.attempts && OutcomeOf(last.db.attempts[a]) == Some(Verdict(s, a)))
  {
    hide Inv, Conclusive, NothingStale, TakenUp, AllDefinitive;
    ReachableInv(t, s);
    var last := Run(t, s, steps).value;
    var remaining := Remaining(last, wanted);
    forall a | a in wanted
      ensures a in remaining ==> Waiting(last, a)
      ensures a !in remaining ==> a in last.db.attempts && OutcomeOf(last.db.attempts[a]) == Some(Verdict(s, a))
    {
      StillPending(t, s, steps, wanted, a);
    }
    if remaining != {} {
      var a := LastInQueue(last.db.attempts, remaining);
      StillPending(t, s, steps, wanted, a);
      RowsHold(t, s);
      AheadIsDue(s, a);
      Subset(remaining - {a}, Ahead(last.db.attempts, a));
    }
  }

  /** With d attempts due, d/16 passes, rounded up, settle every wanted one, and its invoice is paid or open again. */
  lemma EnoughPassesSettleAll(t: Timing, s: State, steps: seq<Step>, wanted: set<Id>)
    requires Sound(t) && Reachable(t, s) && Run(t, s, steps).Some?
    requires AllDefinitive(steps, wanted) && NoneInHand(Run(t, s, steps).value, wanted)
    requires forall a :: a in wanted ==>
               Conclusive(t, s, a) && NothingStale(s, a) && (TakenUp(s, a) || Waiting(s, a))
    requires 16 * Passes(steps, wanted) >= |DueNow(s)| + LateClaims(t, steps, s.now)
    ensures var last := Run(t, s, steps).value;
            forall a :: a in wanted ==>
              a in last.db.attempts && OutcomeOf(last.db.attempts[a]) == Some(Verdict(s, a))
  {
    EveryRunSettles(t, s, steps, wanted);
  }

  // ----- All attempts pending at a given moment

  /** An attempt that nobody takes up for a minute is due by then. */
  lemma {:induction false} UntouchedStays(t: Timing, s: State, steps: seq<Step>, attempt: Id)
    requires Run(t, s, steps).Some? && attempt in s.db.attempts
    requires forall j :: 0 <= j < |steps| ==> !Touches(steps[j], attempt)
    ensures var last := Run(t, s, steps).value;
            attempt in last.db.attempts && last.db.attempts[attempt] == s.db.attempts[attempt] && s.now <= last.now
    decreases |steps|
  {
    if steps != [] {
      assert !Touches(steps[0], attempt);
      AttemptsRemain(t, s, steps[0], attempt);
      WritesAreLater(t, s, steps[0], attempt);
      OnlyReceiptsCharge(t, s, steps[0]);
      UntouchedStays(t, Next(t, s, steps[0]), steps[1..], attempt);
    }
  }

  lemma DueWithinAMinute(t: Timing, s: State, steps: seq<Step>, attempt: Id)
    requires Sound(t) && Inv(t, s) && Run(t, s, steps).Some? && Run(t, s, steps).value.now >= s.now + MAX_BACKOFF
    requires forall j :: 0 <= j < |steps| ==> Definitive(steps[j], attempt)
    requires Conclusive(t, s, attempt) && NothingStale(s, attempt)
    ensures var last := Run(t, s, steps).value; TakenUp(last, attempt) || Waiting(last, attempt)
  {
    hide NetworkOk, ChargesOk, OutcomesOk, WorkOk, EventsOk, KeysOk, Agree, EventsOwned, MoneyOk, LocksOk;
    RunTakesUp(t, s, steps, attempt);
    if !TakenUp(Run(t, s, steps).value, attempt) {
      UntouchedStays(t, s, steps, attempt);
      assert AttemptRow(s.db.attempts[attempt]) && ScheduleRow(t, s.db.attempts[attempt], s.now);
    }
  }

  /** Take any attempts whose answers are definitive, due or not. In every run that lasts a minute and then makes as
      many passes as it takes for those due by then, losing none of them, all are settled as the PSP decided. */
  lemma AllPendingSettle(t: Timing, s: State, waiting: seq<Step>, steps: seq<Step>, wanted: set<Id>)
    requires Sound(t) && Reachable(t, s) && Run(t, s, waiting).Some?
    requires forall a :: a in wanted ==> Conclusive(t, s, a) && NothingStale(s, a)
    requires var later := Run(t, s, waiting).value;
             && later.now >= s.now + MAX_BACKOFF
             && Run(t, later, steps).Some?
             && NoneInHand(Run(t, later, steps).value, wanted)
             && 16 * Passes(steps, wanted) >= |DueNow(later)| + LateClaims(t, steps, later.now)
    requires AllDefinitive(waiting, wanted) && AllDefinitive(steps, wanted)
    ensures var last := Run(t, Run(t, s, waiting).value, steps).value;
            forall a :: a in wanted ==>
              a in last.db.attempts && OutcomeOf(last.db.attempts[a]) == Some(Verdict(s, a))
  {
    hide Inv, Conclusive, NothingStale;
    ReachableInv(t, s);
    var later := Run(t, s, waiting).value;
    LeadsTransitive(t, Initial(), s, later);
    forall a | a in wanted
      ensures Conclusive(t, later, a) && NothingStale(later, a) && (TakenUp(later, a) || Waiting(later, a))
      ensures Verdict(later, a) == Verdict(s, a)
    {
      assert forall j :: 0 <= j < |waiting| ==> Definitive(waiting[j], a);
      RunTakesUp(t, s, waiting, a);
      DueWithinAMinute(t, s, waiting, a);
    }
    EnoughPassesSettleAll(t, later, steps, wanted);
  }
}
