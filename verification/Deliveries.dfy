/** One webhook delivery under any number of dispatchers: leases, calls, late results, crashes and retries. */
module Deliveries {
  import opened Common
  import opened Config

  const RETRY_SCHEDULE: seq<Time> :=
    [30 * SECOND, 120 * SECOND, 600 * SECOND, 1800 * SECOND, 3600 * SECOND, 7200 * SECOND, 14400 * SECOND]

  const MAX_ATTEMPTS: nat := 8

  datatype Status = Pending | Delivered | Exhausted | Cancelled

  datatype Delivery = Delivery(status: Status, attemptCount: nat, nextAttemptAt: Time)

  datatype Response = Success | Failure

  /** The delay after failed attempt `number`, jittered by a tenth either way; zero past the schedule. */
  predicate RetryDelay(number: nat, delay: Time) {
    if 1 <= number <= |RETRY_SCHEDULE| then
      9 * RETRY_SCHEDULE[number - 1] <= 10 * delay <= 11 * RETRY_SCHEDULE[number - 1]
    else delay == 0
  }

  predicate IsDue(row: Delivery, now: Time) {
    row.status == Pending && row.nextAttemptAt <= now
  }

  function Leased(row: Delivery, now: Time): Delivery {
    row.(attemptCount := row.attemptCount + 1, nextAttemptAt := now + DELIVERY_LEASE)
  }

  /** The lease check: nobody has leased or finished the row since attempt `number`. */
  predicate Holds(row: Delivery, number: nat) {
    row.attemptCount == number && row.status == Pending
  }

  function WithResult(row: Delivery, number: nat, result: Response, delay: Time, now: Time): Delivery {
    if !Holds(row, number) then row
    else match result
      case Success => row.(status := Delivered)
      case Failure =>
        row.(status := if number >= MAX_ATTEMPTS then Exhausted else Pending, nextAttemptAt := now + delay)
  }

  function Disabled(row: Delivery): Delivery {
    if row.status == Pending then row.(status := Cancelled) else row
  }

  // ----- The system

  /** What has become of a lease. `Done` says whether its result was accepted, when, and when the row was due then. */
  datatype Phase =
    | Waiting
    | Calling(startedAt: Time)
    | Answered(result: Response)
    | Done(result: Response, accepted: bool, at: Time, due: Time)
    | Lost

  datatype Lease = Lease(leasedAt: Time, phase: Phase)

  /** leases[k] is attempt number k + 1. */
  datatype State = State(row: Delivery, leases: seq<Lease>, now: Time)

  /** How long after leasing a call may start, and how long it may take. */
  datatype Limits = Limits(startDelay: Time, timeout: Time)

  datatype Step =
    | LeaseDue
    | StartCall(k: nat)
    | EndCall(k: nat, result: Response)
    | RecordResult(k: nat, delay: Time)
    | Crash(k: nat)
    | DisableEndpoint
    | Tick(elapsed: Time)

  function Initial(): State {
    State(Delivery(Pending, 0, 0), [], 0)
  }

  ghost predicate Enabled(c: Limits, s: State, step: Step) {
    match step
    case LeaseDue => IsDue(s.row, s.now)
    case StartCall(k) => k < |s.leases| && s.leases[k].phase.Waiting? && s.now <= s.leases[k].leasedAt + c.startDelay
    case EndCall(k, _) => k < |s.leases| && s.leases[k].phase.Calling?
    case RecordResult(k, delay) =>
      k < |s.leases| && s.leases[k].phase.Answered? && RetryDelay(k + 1, delay)
    case Crash(k) => k < |s.leases| && !s.leases[k].phase.Done? && !s.leases[k].phase.Lost?
    case DisableEndpoint => true
    // A call does not outlive its timeout.
    case Tick(elapsed) => forall k :: 0 <= k < |s.leases| && s.leases[k].phase.Calling? ==>
                            s.now + elapsed <= s.leases[k].phase.startedAt + c.timeout
  }

  ghost function Moved(s: State, k: nat, phase: Phase): seq<Lease>
    requires k < |s.leases|
  {
    s.leases[k := s.leases[k].(phase := phase)]
  }

  ghost function Next(c: Limits, s: State, step: Step): State
    requires Enabled(c, s, step)
  {
    match step
    case LeaseDue => s.(row := Leased(s.row, s.now), leases := s.leases + [Lease(s.now, Waiting)])
    case StartCall(k) => s.(leases := Moved(s, k, Calling(s.now)))
    case EndCall(k, result) => s.(leases := Moved(s, k, Answered(result)))
    case RecordResult(k, delay) =>
      var result := s.leases[k].phase.result;
      var row := WithResult(s.row, k + 1, result, delay, s.now);
      s.(row := row, leases := Moved(s, k, Done(result, Holds(s.row, k + 1), s.now, row.nextAttemptAt)))
    case Crash(k) => s.(leases := Moved(s, k, Lost))
    case DisableEndpoint => s.(row := Disabled(s.row))
    case Tick(elapsed) => s.(now := s.now + elapsed)
  }

  ghost function Run(c: Limits, s: State, steps: seq<Step>): Option<State>
    decreases |steps|
  {
    if steps == [] then Some(s)
    else if Enabled(c, s, steps[0]) then Run(c, Next(c, s, steps[0]), steps[1..])
    else None
  }

  ghost predicate Leads(c: Limits, s: State, s': State) {
    exists steps :: Run(c, s, steps) == Some(s')
  }

  ghost predicate Reached(c: Limits, s: State) {
    Leads(c, Initial(), s)
  }

  // ----- The invariant

  predicate Open(phase: Phase) { phase.Waiting? || phase.Calling? || phase.Answered? }

  predicate Accepted(phase: Phase) { phase.Done? && phase.accepted }

  /** An accepted result that leaves the row pending: a failure with retries left. */
  predicate Retried(lease: Lease, number: nat) {
    Accepted(lease.phase) && lease.phase.result == Failure && number < MAX_ATTEMPTS
  }

  /** The row was put off by the delay of this attempt. */
  ghost predicate Waits(lease: Lease, number: nat) {
    lease.phase.Done? && lease.phase.at <= lease.phase.due && RetryDelay(number, lease.phase.due - lease.phase.at)
  }

  ghost predicate LeaseOk(c: Limits, lease: Lease, now: Time) {
    && lease.leasedAt <= now
    && (lease.phase.Calling? ==>
          lease.leasedAt <= lease.phase.startedAt <= lease.leasedAt + c.startDelay
          && lease.phase.startedAt <= now <= lease.phase.startedAt + c.timeout)
    && (lease.phase.Done? ==> lease.leasedAt <= lease.phase.at <= now)
  }

  ghost predicate Apart(leases: seq<Lease>, k: nat, l: nat)
    requires k < l < |leases|
  {
    && leases[k].leasedAt <= leases[l].leasedAt
    && (Open(leases[k].phase) ==> leases[k].leasedAt + DELIVERY_LEASE <= leases[l].leasedAt)
    && (Accepted(leases[k].phase) ==> Retried(leases[k], k + 1))
    && (Retried(leases[k], k + 1) ==> Waits(leases[k], k + 1) && leases[k].phase.due <= leases[l].leasedAt)
  }

  /** A row is leased again only once the lease before has run out, or its failure was recorded and waited out. */
  ghost predicate Spaced(leases: seq<Lease>) {
    forall k, l :: 0 <= k < l < |leases| ==> Apart(leases, k, l)
  }

  ghost predicate LastOk(row: Delivery, leases: seq<Lease>) {
    |leases| > 0 ==>
      var last := leases[|leases| - 1];
      && (Open(last.phase) && row.status == Pending ==> row.nextAttemptAt == last.leasedAt + DELIVERY_LEASE)
      && (Accepted(last.phase) && !Retried(last, |leases|) ==> row.status == Delivered || row.status == Exhausted)
      && (Retried(last, |leases|) ==> Waits(last, |leases|) && row.nextAttemptAt == last.phase.due)
      && (row.status == Exhausted ==> |leases| >= MAX_ATTEMPTS && Accepted(last.phase) && last.phase.result == Failure)
      && (row.status == Delivered ==> Accepted(last.phase) && last.phase.result == Success)
  }

  ghost predicate Inv(c: Limits, s: State) {
    && s.row.attemptCount == |s.leases|
    && (s.leases == [] ==> s.row.status == Pending || s.row.status == Cancelled)
    && (forall k :: 0 <= k < |s.leases| ==> LeaseOk(c, s.leases[k], s.now))
    && Spaced(s.leases)
    && LastOk(s.row, s.leases)
  }

  // ----- Every step keeps it

  lemma LeaseKeepsSpaced(c: Limits, s: State)
    requires Inv(c, s) && IsDue(s.row, s.now)
    ensures Spaced(s.leases + [Lease(s.now, Waiting)])
  {
    var leases' := s.leases + [Lease(s.now, Waiting)];
    forall i, j | 0 <= i < j < |leases'| ensures Apart(leases', i, j) {
      assert LeaseOk(c, s.leases[i], s.now);
      if j < |s.leases| {
        assert Apart(s.leases, i, j);
      } else if i < |s.leases| - 1 {
        assert Apart(s.leases, i, |s.leases| - 1);
      }
    }
  }

  lemma LeaseKeepsInv(c: Limits, s: State)
    requires Inv(c, s) && Enabled(c, s, LeaseDue)
    ensures Inv(c, Next(c, s, LeaseDue))
  {
    LeaseKeepsSpaced(c, s);
  }

  /** A change of phase that opens nothing and accepts nothing. */
  lemma MoveKeepsSpaced(leases: seq<Lease>, k: nat, phase: Phase)
    requires Spaced(leases) && k < |leases|
    requires Open(phase) ==> Open(leases[k].phase)
    requires !Accepted(phase)
    ensures Spaced(leases[k := leases[k].(phase := phase)])
  {
    var leases' := leases[k := leases[k].(phase := phase)];
    forall i, j | 0 <= i < j < |leases'| ensures Apart(leases', i, j) {
      assert Apart(leases, i, j);
    }
  }

  lemma MoveKeepsInv(c: Limits, s: State, k: nat, phase: Phase)
    requires Inv(c, s) && k < |s.leases| && Open(s.leases[k].phase)
    requires !Accepted(phase) && LeaseOk(c, s.leases[k].(phase := phase), s.now)
    ensures Inv(c, s.(leases := Moved(s, k, phase)))
  {
    MoveKeepsSpaced(s.leases, k, phase);
  }

  /** Only the newest lease can hold the row, so an accepted result is always the newest lease's. */
  lemma RecordKeepsInv(c: Limits, s: State, k: nat, delay: Time)
    requires Inv(c, s) && Enabled(c, s, RecordResult(k, delay))
    ensures Inv(c, Next(c, s, RecordResult(k, delay)))
  {
    var s' := Next(c, s, RecordResult(k, delay));
    if Holds(s.row, k + 1) {
      RecordKeepsSpaced(s.leases, s'.leases[k].phase);
    } else {
      MoveKeepsInv(c, s, k, s'.leases[k].phase);
    }
  }

  lemma RecordKeepsSpaced(leases: seq<Lease>, phase: Phase)
    requires Spaced(leases) && leases != []
    ensures Spaced(leases[|leases| - 1 := leases[|leases| - 1].(phase := phase)])
  {
    var leases' := leases[|leases| - 1 := leases[|leases| - 1].(phase := phase)];
    forall i, j | 0 <= i < j < |leases'| ensures Apart(leases', i, j) {
      assert Apart(leases, i, j);
    }
  }

  lemma StepKeepsInv(c: Limits, s: State, step: Step)
    requires Inv(c, s) && Enabled(c, s, step)
    ensures Inv(c, Next(c, s, step))
  {
    if step.LeaseDue? {
      LeaseKeepsInv(c, s);
    } else if step.StartCall? {
      MoveKeepsInv(c, s, step.k, Calling(s.now));
    } else if step.EndCall? {
      MoveKeepsInv(c, s, step.k, Answered(step.result));
    } else if step.RecordResult? {
      RecordKeepsInv(c, s, step.k, step.delay);
    } else if step.Crash? {
      MoveKeepsInv(c, s, step.k, Lost);
    } else if step.Tick? {
      assert forall k :: 0 <= k < |s.leases| ==> LeaseOk(c, s.leases[k], s.now + step.elapsed);
    }
  }

  lemma {:induction false} RunKeepsInv(c: Limits, s: State, steps: seq<Step>)
    requires Inv(c, s) && Run(c, s, steps).Some?
    ensures Inv(c, Run(c, s, steps).value)
    decreases |steps|
  {
    if steps != [] {
      StepKeepsInv(c, s, steps[0]);
      RunKeepsInv(c, Next(c, s, steps[0]), steps[1..]);
    }
  }

  lemma ReachedInv(c: Limits, s: State)
    requires Reached(c, s)
    ensures Inv(c, s)
  {
    var steps :| Run(c, Initial(), steps) == Some(s);
    RunKeepsInv(c, Initial(), steps);
  }

  lemma {:induction false} RunThen(c: Limits, s: State, steps: seq<Step>, step: Step)
    requires Run(c, s, steps).Some? && Enabled(c, Run(c, s, steps).value, step)
    ensures Run(c, s, steps + [step]) == Some(Next(c, Run(c, s, steps).value, step))
    decreases |steps|
  {
    if steps == [] {
      assert (steps + [step])[1..] == [];
    } else {
      assert (steps + [step])[1..] == steps[1..] + [step];
      RunThen(c, Next(c, s, steps[0]), steps[1..], step);
    }
  }

  lemma Follow(c: Limits, s0: State, s: State, step: Step) returns (s': State)
    requires Leads(c, s0, s) && Enabled(c, s, step)
    ensures s' == Next(c, s, step) && Leads(c, s0, s')
  {
    var steps :| Run(c, s0, steps) == Some(s);
    RunThen(c, s0, steps, step);
    s' := Next(c, s, step);
  }

  lemma Extend(c: Limits, s: State, step: Step) returns (s': State)
    requires Reached(c, s) && Enabled(c, s, step)
    ensures s' == Next(c, s, step) && Reached(c, s')
  {
    s' := Follow(c, Initial(), s, step);
  }

  lemma Start(c: Limits) returns (s: State)
    ensures s == Initial() && Reached(c, s)
  {
    s := Initial();
    assert Run(c, s, []) == Some(s);
  }

  // ----- Fencing

  /** A row that is no longer pending never changes again, and attempt numbers are never reused. */
  ghost predicate Settles(s: State, s': State) {
    && |s.leases| <= |s'.leases|
    && s.row.attemptCount <= s'.row.attemptCount
    && (s.row.status != Pending ==> s'.row == s.row)
    && (forall k :: 0 <= k < |s.leases| && s.leases[k].phase.Done? ==> s'.leases[k] == s.leases[k])
  }

  lemma {:induction false} FinishedForGood(c: Limits, s: State, steps: seq<Step>)
    requires Run(c, s, steps).Some?
    ensures Settles(s, Run(c, s, steps).value)
    decreases |steps|
  {
    if steps != [] {
      assert Settles(s, Next(c, s, steps[0]));
      FinishedForGood(c, Next(c, s, steps[0]), steps[1..]);
    }
  }

  /** The documented wait after failed attempt `number`, with a tenth of jitter either way: 30 seconds, 2 minutes, 10
      minutes, 30 minutes, 1 hour, 2 hours, 4 hours; none after the eighth. */
  lemma WaitsAsDocumented(number: nat, delay: Time)
    ensures RetryDelay(number, delay) <==>
            if number == 1 then 27 * SECOND <= delay <= 33 * SECOND
            else if number == 2 then 108 * SECOND <= delay <= 132 * SECOND
            else if number == 3 then 540 * SECOND <= delay <= 660 * SECOND
            else if number == 4 then 1620 * SECOND <= delay <= 1980 * SECOND
            else if number == 5 then 3240 * SECOND <= delay <= 3960 * SECOND
            else if number == 6 then 6480 * SECOND <= delay <= 7920 * SECOND
            else if number == 7 then 12960 * SECOND <= delay <= 15840 * SECOND
            else delay == 0
  {
  }

  /** A lease needs a pending row whose time has come, counts an attempt and holds the row for a minute; disabling the
      endpoint cancels a pending row and touches no other. */
  lemma LeasingAndDisabling(c: Limits, s: State)
    ensures Enabled(c, s, LeaseDue) <==> s.row.status == Pending && s.row.nextAttemptAt <= s.now
    ensures Enabled(c, s, LeaseDue) ==>
              && Next(c, s, LeaseDue).row == Delivery(Pending, s.row.attemptCount + 1, s.now + 60 * SECOND)
              && Next(c, s, LeaseDue).leases == s.leases + [Lease(s.now, Waiting)]
    ensures Next(c, s, DisableEndpoint).row ==
            if s.row.status == Pending then Delivery(Cancelled, s.row.attemptCount, s.row.nextAttemptAt) else s.row
    ensures Next(c, s, DisableEndpoint).leases == s.leases
  {
  }

  /** What a recorded result makes of the row, written out. `number` is the attempt it reports. */
  predicate Recorded(row: Delivery, number: nat, result: Response, now: Time, row': Delivery) {
    if row.attemptCount != number || row.status != Pending then row' == row
    else if result == Success then row' == Delivery(Delivered, number, row.nextAttemptAt)
    else if number >= 8 then row'.status == Exhausted && row'.attemptCount == number
    else
      && row'.status == Pending && row'.attemptCount == number
      && (number == 1 ==> now + 27 * SECOND <= row'.nextAttemptAt <= now + 33 * SECOND)
      && (number == 2 ==> now + 108 * SECOND <= row'.nextAttemptAt <= now + 132 * SECOND)
      && (number == 3 ==> now + 540 * SECOND <= row'.nextAttemptAt <= now + 660 * SECOND)
      && (number == 4 ==> now + 1620 * SECOND <= row'.nextAttemptAt <= now + 1980 * SECOND)
      && (number == 5 ==> now + 3240 * SECOND <= row'.nextAttemptAt <= now + 3960 * SECOND)
      && (number == 6 ==> now + 6480 * SECOND <= row'.nextAttemptAt <= now + 7920 * SECOND)
      && (number == 7 ==> now + 12960 * SECOND <= row'.nextAttemptAt <= now + 15840 * SECOND)
  }

  lemma ResultIsRecorded(row: Delivery, number: nat, result: Response, delay: Time, now: Time)
    requires RetryDelay(number, delay)
    ensures Recorded(row, number, result, now, WithResult(row, number, result, delay, now))
    ensures result == Failure && row.attemptCount == number && row.status == Pending ==>
              WithResult(row, number, result, delay, now).nextAttemptAt == now + delay
  {
    WaitsAsDocumented(number, delay);
  }

  /** A result counts only if its lease is the newest and the row is still pending; it then ends that lease, and the
      row is delivered, exhausted at the eighth attempt, or put off by the documented wait. Otherwise it changes
      nothing but the record of the lease itself. */
  lemma ResultsAreFenced(c: Limits, s: State, k: nat, delay: Time)
    requires Reached(c, s) && Enabled(c, s, RecordResult(k, delay))
    ensures var s' := Next(c, s, RecordResult(k, delay));
            && s'.leases[k].phase.Done?
            && s'.leases[k].phase.accepted == (k == |s.leases| - 1 && s.row.status == Pending)
            && (!s'.leases[k].phase.accepted ==> s'.row == s.row)
            && (s'.leases[k].phase.accepted ==>
                  match s.leases[k].phase.result
                  case Success => s'.row.status == Delivered
                  case Failure =>
                    if k + 1 < 8 then s'.row.status == Pending && s.now + 27 * SECOND <= s'.row.nextAttemptAt
                    else s'.row.status == Exhausted)
            && Recorded(s.row, k + 1, s.leases[k].phase.result, s.now, s'.row)
            && (forall j :: 0 <= j < |s.leases| && j != k ==> s'.leases[j] == s.leases[j])
  {
    ReachedInv(c, s);
    ResultIsRecorded(s.row, k + 1, s.leases[k].phase.result, delay, s.now);
  }

  /** Over any run, the attempt after a retried failure is leased no earlier than the documented wait after that failure
      was recorded. */
  lemma RetriesWait(c: Limits, s: State, k: nat)
    requires Reached(c, s) && k + 1 < |s.leases| && Accepted(s.leases[k].phase)
    ensures s.leases[k].phase.result == Failure && k < 7
    ensures var waited := s.leases[k + 1].leasedAt - s.leases[k].phase.at;
            && (k == 0 ==> waited >= 27 * SECOND)
            && (k == 1 ==> waited >= 108 * SECOND)
            && (k == 2 ==> waited >= 540 * SECOND)
            && (k == 3 ==> waited >= 1620 * SECOND)
            && (k == 4 ==> waited >= 3240 * SECOND)
            && (k == 5 ==> waited >= 6480 * SECOND)
            && (k == 6 ==> waited >= 12960 * SECOND)
  {
    ReachedInv(c, s);
    assert Apart(s.leases, k, k + 1);
    WaitsAsDocumented(k + 1, s.leases[k].phase.due - s.leases[k].phase.at);
  }

  // ----- Calls

  ghost predicate OneCall(s: State) {
    forall k, l :: 0 <= k < |s.leases| && 0 <= l < |s.leases| && s.leases[k].phase.Calling? && s.leases[l].phase.Calling?
      ==> k == l
  }

  lemma CallsFitTheLease(c: Limits, s: State)
    requires Reached(c, s) && c.startDelay + c.timeout < DELIVERY_LEASE
    ensures OneCall(s)
  {
    ReachedInv(c, s);
    forall k, l | 0 <= k < l < |s.leases| ensures !(s.leases[k].phase.Calling? && s.leases[l].phase.Calling?) {
      assert LeaseOk(c, s.leases[k], s.now) && LeaseOk(c, s.leases[l], s.now) && Apart(s.leases, k, l);
    }
  }

  lemma Overlap(c: Limits)
    requires c.startDelay + c.timeout >= DELIVERY_LEASE
    ensures exists s :: Reached(c, s) && !OneCall(s)
  {
    var wait := if c.startDelay < DELIVERY_LEASE then c.startDelay else DELIVERY_LEASE;
    var s := Start(c);
    s := Extend(c, s, LeaseDue);
    s := Extend(c, s, Tick(wait));
    s := Extend(c, s, StartCall(0));
    s := Extend(c, s, Tick(DELIVERY_LEASE - wait));
    s := Extend(c, s, LeaseDue);
    s := Extend(c, s, StartCall(1));
    assert s.leases[0].phase.Calling? && s.leases[1].phase.Calling?;
  }

  /** No delivery ever has two calls in flight if and only if a call is over before its lease is. The service checks
      only the timeout; the delay before the call is what the condition adds. */
  lemma OneCallIffItFits(c: Limits)
    ensures (forall s :: Reached(c, s) ==> OneCall(s)) <==> c.startDelay + c.timeout < 60 * SECOND
  {
    if c.startDelay + c.timeout < DELIVERY_LEASE {
      forall s | Reached(c, s) ensures OneCall(s) {
        CallsFitTheLease(c, s);
      }
    } else {
      Overlap(c);
    }
  }

  // ----- The retry budget

  ghost function Where(leases: seq<Lease>, p: Phase -> bool): set<nat> {
    set k | 0 <= k < |leases| && p(leases[k].phase)
  }

  ghost function Retries(leases: seq<Lease>): set<nat> {
    set k | 0 <= k < |leases| && Retried(leases[k], k + 1)
  }

  ghost function Below(n: nat): (r: set<nat>)
    ensures |r| == n && forall k: nat :: k in r <==> k < n
  {
    if n == 0 then {} else Below(n - 1) + {n - 1}
  }

  lemma SubsetSize<T>(part: set<T>, whole: set<T>)
    requires part <= whole
    ensures |part| <= |whole|
  {
    assert whole == part + (whole - part);
  }

  /** Every attempt number is a recorded result, a lost lease, or a lease still outstanding. */
  lemma AttemptsAreAccountedFor(c: Limits, s: State)
    requires Reached(c, s)
    ensures s.row.attemptCount ==
            |Where(s.leases, (p: Phase) => p.Done?)| + |Where(s.leases, (p: Phase) => p.Lost?)| + |Where(s.leases, Open)|
  {
    ReachedInv(c, s);
    var done := Where(s.leases, (p: Phase) => p.Done?);
    var lost := Where(s.leases, (p: Phase) => p.Lost?);
    var open := Where(s.leases, Open);
    assert done + lost + open == Below(|s.leases|);
  }

  /** A recorded failure that leaves the row pending. */
  ghost predicate IsRetry(c: Limits, s: State, step: Step) {
    && step.RecordResult? && Enabled(c, s, step)
    && Holds(s.row, step.k + 1) && s.leases[step.k].phase.result == Failure
    && Next(c, s, step).row.status == Pending
  }

  ghost function RetriesIn(c: Limits, s: State, steps: seq<Step>): nat
    requires Run(c, s, steps).Some?
    decreases |steps|
  {
    if steps == [] then 0
    else (if IsRetry(c, s, steps[0]) then 1 else 0) + RetriesIn(c, Next(c, s, steps[0]), steps[1..])
  }

  /** A retry uses up the newest lease, which is one of the first seven; nothing else does, and none is given back. */
  lemma StepCountsRetry(c: Limits, s: State, step: Step)
    requires Inv(c, s) && Enabled(c, s, step)
    ensures |Retries(Next(c, s, step).leases)| == |Retries(s.leases)| + if IsRetry(c, s, step) then 1 else 0
  {
    var (before, after) := (Retries(s.leases), Retries(Next(c, s, step).leases));
    if IsRetry(c, s, step) {
      assert after == before + {step.k};
    } else if step.RecordResult? {
      NoRetry(c, s, step);
      assert after == before;
    } else {
      OthersRetryNothing(c, s, step);
    }
  }

  lemma NoRetry(c: Limits, s: State, step: Step)
    requires Enabled(c, s, step) && step.RecordResult? && !IsRetry(c, s, step)
    ensures !Retried(Next(c, s, step).leases[step.k], step.k + 1)
  {
  }

  lemma OthersRetryNothing(c: Limits, s: State, step: Step)
    requires Enabled(c, s, step) && !step.RecordResult?
    ensures Retries(Next(c, s, step).leases) == Retries(s.leases)
  {
    var leases := Next(c, s, step).leases;
    forall k: nat ensures k < |leases| && Retried(leases[k], k + 1) <==> k < |s.leases| && Retried(s.leases[k], k + 1) {}
  }

  lemma {:induction false} RunCountsRetries(c: Limits, s: State, steps: seq<Step>)
    requires Inv(c, s) && Run(c, s, steps).Some?
    ensures |Retries(Run(c, s, steps).value.leases)| == |Retries(s.leases)| + RetriesIn(c, s, steps)
    decreases |steps|
  {
    if steps != [] {
      StepKeepsInv(c, s, steps[0]);
      StepCountsRetry(c, s, steps[0]);
      RunCountsRetries(c, Next(c, s, steps[0]), steps[1..]);
    }
  }

  lemma SevenRetries(c: Limits, steps: seq<Step>)
    requires Run(c, Initial(), steps).Some?
    ensures RetriesIn(c, Initial(), steps) <= MAX_ATTEMPTS - 1
  {
    RunCountsRetries(c, Initial(), steps);
    assert Retries(Initial().leases) == {};
    SubsetSize(Retries(Run(c, Initial(), steps).value.leases), Below(7));
  }

  lemma {:induction false} PrefixRuns(c: Limits, s: State, steps: seq<Step>, n: nat)
    requires Run(c, s, steps).Some? && n <= |steps|
    ensures Run(c, s, steps[..n]).Some?
    ensures n < |steps| ==> Enabled(c, Run(c, s, steps[..n]).value, steps[n])
    decreases n
  {
    if n > 0 {
      PrefixRuns(c, Next(c, s, steps[0]), steps[1..], n - 1);
      assert steps[..n][1..] == steps[1..][..n - 1];
    }
  }

  /** Step j of a run, if it is a retry, puts the next attempt at least 27 seconds ahead. */
  ghost predicate PutsOff(c: Limits, steps: seq<Step>, j: nat)
    requires j < |steps|
  {
    var s := Run(c, Initial(), steps[..j]);
    && s.Some?
    && (IsRetry(c, s.value, steps[j]) ==>
          s.value.now + 27 * SECOND <= Next(c, s.value, steps[j]).row.nextAttemptAt)
  }

  lemma EightAccepted(c: Limits, s: State)
    requires Inv(c, s)
    ensures |Where(s.leases, Accepted)| <= MAX_ATTEMPTS
  {
    var accepted := Where(s.leases, Accepted);
    var allowed := if s.leases == [] then {} else Below(7) + {|s.leases| - 1};
    forall k | k in accepted ensures k in allowed {
      assert k < |s.leases| - 1 ==> Apart(s.leases, k, |s.leases| - 1);
    }
    SubsetSize(accepted, allowed);
  }

  lemma OthersFillTheRest(leases: seq<Lease>)
    ensures |leases| == |Where(leases, Accepted)| + |Where(leases, (p: Phase) => !Accepted(p))|
  {
    assert Where(leases, Accepted) + Where(leases, (p: Phase) => !Accepted(p)) == Below(|leases|);
  }

  /** Over any run, at most seven recorded failures leave the row pending, each putting it off by 27 seconds or more,
      and at most eight results are accepted; so attempts beyond the eighth are paid for one by one with leases that
      came to nothing. */
  lemma RetryBudget(c: Limits, steps: seq<Step>)
    requires Run(c, Initial(), steps).Some?
    ensures RetriesIn(c, Initial(), steps) <= 7
    ensures forall j :: 0 <= j < |steps| ==> PutsOff(c, steps, j)
    ensures var s := Run(c, Initial(), steps).value;
            && |Where(s.leases, Accepted)| <= 8
            && s.row.attemptCount <= 8 + |Where(s.leases, (p: Phase) => !Accepted(p))|
  {
    var s := Run(c, Initial(), steps).value;
    ReachedInv(c, s);
    SevenRetries(c, steps);
    forall j | 0 <= j < |steps| ensures PutsOff(c, steps, j) {
      PrefixRuns(c, Initial(), steps, j);
      RetryIsPutOff(c, Run(c, Initial(), steps[..j]).value, steps[j]);
    }
    EightAccepted(c, s);
    OthersFillTheRest(s.leases);
  }

  lemma RetryIsPutOff(c: Limits, s: State, step: Step)
    requires Reached(c, s) && Enabled(c, s, step)
    ensures IsRetry(c, s, step) ==> s.now + 27 * SECOND <= Next(c, s, step).row.nextAttemptAt
  {
    if IsRetry(c, s, step) {
      ResultsAreFenced(c, s, step.k, step.delay);
    }
  }

  ghost predicate AllAccepted(leases: seq<Lease>) {
    forall k :: 0 <= k < |leases| ==> Accepted(leases[k].phase)
  }

  /** How long the row was put off when the result was recorded. */
  function Delay(lease: Lease): Time {
    if lease.phase.Done? && lease.phase.at <= lease.phase.due then lease.phase.due - lease.phase.at else 0
  }

  /** The total of the seven waits between eight attempts. */
  function TotalWait(leases: seq<Lease>): Time
    requires |leases| >= 7
  {
    Delay(leases[0]) + Delay(leases[1]) + Delay(leases[2]) + Delay(leases[3])
    + Delay(leases[4]) + Delay(leases[5]) + Delay(leases[6])
  }

  lemma NinthMeansLoss(c: Limits, s: State)
    requires Inv(c, s) && |s.leases| > MAX_ATTEMPTS
    ensures !Accepted(s.leases[7].phase)
  {
    assert Apart(s.leases, 7, 8);
  }

  /** With no result lost or late, the row is exhausted by exactly eight failures, and never leased a ninth time; the
      scheduled waits add up to 27750 seconds within a tenth. */
  lemma ExhaustedAfterEight(c: Limits, s: State)
    requires Reached(c, s) && AllAccepted(s.leases)
    ensures |s.leases| <= 8
    ensures s.row.status == Exhausted <==>
              |s.leases| == 8 && forall k :: 0 <= k < 8 ==> s.leases[k].phase.result == Failure
    ensures s.row.status == Exhausted ==>
              && 9 * 27750 * SECOND <= 10 * TotalWait(s.leases) <= 11 * 27750 * SECOND
              && 10 * (s.leases[7].leasedAt - s.leases[0].leasedAt) >= 9 * 27750 * SECOND
  {
    ReachedInv(c, s);
    if |s.leases| > MAX_ATTEMPTS {
      NinthMeansLoss(c, s);
      assert false;
    }
    if |s.leases| == MAX_ATTEMPTS {
      forall k | 0 <= k < 7 ensures s.leases[k].phase.result == Failure {
        assert Apart(s.leases, k, 7);
      }
      assert s.row.status == Exhausted <==> s.leases[7].phase.result == Failure;
      WaitsAddUp(s.leases);
    }
  }

  lemma WaitsAddUp(leases: seq<Lease>)
    requires |leases| == 8 && Spaced(leases) && AllAccepted(leases)
    requires forall k :: 0 <= k < 7 ==> leases[k].leasedAt <= leases[k].phase.at
    ensures 9 * 27750 * SECOND <= 10 * TotalWait(leases) <= 11 * 27750 * SECOND
    ensures 10 * (leases[7].leasedAt - leases[0].leasedAt) >= 9 * 27750 * SECOND
  {
    forall k | 0 <= k < 7
      ensures RetryDelay(k + 1, Delay(leases[k])) && leases[k + 1].leasedAt >= leases[k].leasedAt + Delay(leases[k])
    {
      assert Apart(leases, k, k + 1);
    }
  }

  /** Crashes are not counted against the budget: a row can be leased any number of times and still be pending. */
  lemma {:induction false} CrashesDoNotExhaust(c: Limits, n: nat) returns (s: State)
    ensures Reached(c, s) && s.row.attemptCount == n && s.row.status == Pending
    ensures forall k :: 0 <= k < |s.leases| ==> s.leases[k].phase.Lost?
  {
    if n == 0 {
      s := Start(c);
    } else {
      s := CrashesDoNotExhaust(c, n - 1);
      ReachedInv(c, s);
      var wait := if s.row.nextAttemptAt <= s.now then 0 else s.row.nextAttemptAt - s.now;
      s := Extend(c, s, Tick(wait));
      s := Extend(c, s, LeaseDue);
      s := Extend(c, s, Crash(n - 1));
    }
  }

  // ----- When there can be a ninth attempt

  ghost predicate NoCalls(s: State) {
    forall k :: 0 <= k < |s.leases| ==> !s.leases[k].phase.Calling?
  }

  /** Every call in flight can be lost with its worker. */
  lemma {:induction false} LoseCalls(c: Limits, s0: State, s: State) returns (s': State)
    requires Leads(c, s0, s)
    ensures Leads(c, s0, s') && s'.row == s.row && NoCalls(s')
    decreases |Where(s.leases, (p: Phase) => p.Calling?)|
  {
    if k :| 0 <= k < |s.leases| && s.leases[k].phase.Calling? {
      var lost := Follow(c, s0, s, Crash(k));
      var (before, after) := (Where(s.leases, (p: Phase) => p.Calling?), Where(lost.leases, (p: Phase) => p.Calling?));
      assert after == before - {k};
      s' := LoseCalls(c, s0, lost);
    } else {
      s' := s;
    }
  }

  lemma {:induction false} LeaseAgain(c: Limits, s0: State, s: State, n: nat) returns (s': State)
    requires Leads(c, s0, s) && NoCalls(s) && s.row.status == Pending
    ensures Leads(c, s0, s') && s'.row.attemptCount == s.row.attemptCount + n
    decreases n
  {
    s' := s;
    if n > 0 {
      var wait := if s.row.nextAttemptAt <= s.now then 0 else s.row.nextAttemptAt - s.now;
      s' := Follow(c, s0, s', Tick(wait));
      s' := Follow(c, s0, s', LeaseDue);
      s' := LeaseAgain(c, s0, s', n - 1);
    }
  }

  ghost predicate CanExceedEight(c: Limits, s: State) {
    exists s' :: Leads(c, s, s') && s'.row.attemptCount > MAX_ATTEMPTS
  }

  /** A delivery can come to have more than eight attempts if and only if it has them already or is still pending: the
      count alone never closes a row, only a recorded result or a disabled endpoint does. */
  lemma NinthAttemptIff(c: Limits, s: State)
    ensures (exists s' :: Leads(c, s, s') && s'.row.attemptCount > 8) <==> s.row.attemptCount > 8 || s.row.status == Pending
  {
    assert Run(c, s, []) == Some(s);
    if s.row.status == Pending {
      var quiet := LoseCalls(c, s, s);
      var ninth := LeaseAgain(c, s, quiet, MAX_ATTEMPTS + 1);
    } else if CanExceedEight(c, s) {
      var s' :| Leads(c, s, s') && s'.row.attemptCount > MAX_ATTEMPTS;
      var steps :| Run(c, s, steps) == Some(s');
      FinishedForGood(c, s, steps);
    }
  }
}
