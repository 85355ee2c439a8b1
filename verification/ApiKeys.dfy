/** API keys: revocation under the business row lock, and why no business can lock itself out. */
module ApiKeys {
  import opened Common

  datatype ApiKey = ApiKey(business: Id, revokedAt: Option<Time>)

  datatype Fault = NotFound | LastActiveKey

  predicate Active(keys: map<Id, ApiKey>, business: Id, key: Id) {
    key in keys && keys[key].business == business && keys[key].revokedAt.None?
  }

  predicate AnotherActive(keys: map<Id, ApiKey>, business: Id, key: Id) {
    exists other :: other in keys && other != key && Active(keys, business, other)
  }

  ghost predicate CanAuthenticate(keys: map<Id, ApiKey>, business: Id) {
    exists key :: Active(keys, business, key)
  }

  ghost predicate NoneLockedOut(businesses: set<Id>, keys: map<Id, ApiKey>) {
    forall b :: b in businesses ==> CanAuthenticate(keys, b)
  }

  /** One revocation, uninterrupted. */
  function Revoked(keys: map<Id, ApiKey>, business: Id, key: Id, now: Time): (map<Id, ApiKey>, Result<ApiKey, Fault>) {
    if key !in keys || keys[key].business != business then (keys, Err(NotFound))
    else if keys[key].revokedAt.Some? then (keys, Ok(keys[key]))
    else if !AnotherActive(keys, business, key) then (keys, Err(LastActiveKey))
    else
      var row := keys[key].(revokedAt := Some(now));
      (keys[key := row], Ok(row))
  }

  // ----- The protocol

  /** A revocation between its statements. `started` is its now(): when the transaction began, before any wait for the
      lock. */
  datatype Phase = Locked | Found | Checked | Updated

  datatype Revocation = Revocation(business: Id, key: Id, started: Time, phase: Phase)

  datatype State = State(businesses: set<Id>, keys: map<Id, ApiKey>, open: map<Id, Revocation>, now: Time)

  function Initial(): State { State({}, map[], map[], 0) }

  datatype Step =
    | CreateBusiness(business: Id, key: Id)
    | Issue(business: Id, key: Id)
    | Lock(tx: Id, business: Id, key: Id, started: Time)
    | Find(tx: Id)
    | Check(tx: Id)
    | Update(tx: Id)
    | Commit(tx: Id)
    | Abort(tx: Id)
    | Tick(elapsed: Time)

  /** No other open revocation has updated this row. */
  ghost predicate RowFree(s: State, tx: Id)
    requires tx in s.open
  {
    forall other :: other in s.open && other != tx && s.open[other].phase.Updated? ==> s.open[other].key != s.open[tx].key
  }

  /** `locking`: whether a revocation takes the business row FOR NO KEY UPDATE. Issuing a key takes no such lock. */
  ghost predicate Enabled(locking: bool, s: State, step: Step) {
    match step
    case CreateBusiness(business, key) => business !in s.businesses && key !in s.keys
    case Issue(business, key) => business in s.businesses && key !in s.keys
    case Lock(tx, business, _, started) =>
      && tx !in s.open && started <= s.now
      && business in s.businesses
      && (locking ==> forall other :: other in s.open ==> s.open[other].business != business)
    case Find(tx) => tx in s.open && s.open[tx].phase.Locked?
    case Check(tx) => tx in s.open && s.open[tx].phase.Found?
    case Update(tx) => tx in s.open && s.open[tx].phase.Checked? && RowFree(s, tx)
    case Commit(tx) => tx in s.open && s.open[tx].phase.Updated?
    case Abort(tx) => tx in s.open
    case Tick(_) => true
  }

  function Enter(s: State, tx: Id, phase: Phase): State
    requires tx in s.open
  {
    s.(open := s.open[tx := s.open[tx].(phase := phase)])
  }

  function Leave(s: State, tx: Id): State {
    s.(open := s.open - {tx})
  }

  ghost function Next(locking: bool, s: State, step: Step): State
    requires Enabled(locking, s, step)
  {
    match step
    case CreateBusiness(business, key) =>
      s.(businesses := s.businesses + {business}, keys := s.keys[key := ApiKey(business, None)])
    case Issue(business, key) => s.(keys := s.keys[key := ApiKey(business, None)])
    case Lock(tx, business, key, started) => s.(open := s.open[tx := Revocation(business, key, started, Locked)])
    case Find(tx) =>
      if Active(s.keys, s.open[tx].business, s.open[tx].key) then Enter(s, tx, Found) else Leave(s, tx)
    case Check(tx) =>
      if AnotherActive(s.keys, s.open[tx].business, s.open[tx].key) then Enter(s, tx, Checked) else Leave(s, tx)
    case Update(tx) => Enter(s, tx, Updated)
    case Commit(tx) =>
      var key := s.open[tx].key;
      Leave(s, tx).(keys := if key in s.keys then s.keys[key := s.keys[key].(revokedAt := Some(s.open[tx].started))] else s.keys)
    case Abort(tx) => Leave(s, tx)
    case Tick(elapsed) => s.(now := s.now + elapsed)
  }

  ghost function Run(locking: bool, s: State, steps: seq<Step>): Option<State>
    decreases |steps|
  {
    if steps == [] then Some(s)
    else if Enabled(locking, s, steps[0]) then Run(locking, Next(locking, s, steps[0]), steps[1..])
    else None
  }

  ghost predicate Reached(locking: bool, s: State) {
    exists steps :: Run(locking, Initial(), steps) == Some(s)
  }

  // ----- The invariant

  /** What a revocation has seen still holds: nobody else can revoke a key of its business. */
  ghost predicate StillTrue(keys: map<Id, ApiKey>, r: Revocation) {
    && (r.phase != Locked ==> Active(keys, r.business, r.key))
    && (r.phase.Checked? || r.phase.Updated? ==> AnotherActive(keys, r.business, r.key))
  }

  ghost predicate OnePerBusiness(open: map<Id, Revocation>) {
    forall tx, other :: tx in open && other in open && open[tx].business == open[other].business ==> tx == other
  }

  ghost predicate Inv(s: State) {
    && NoneLockedOut(s.businesses, s.keys)
    && OnePerBusiness(s.open)
    && forall tx :: tx in s.open ==> StillTrue(s.keys, s.open[tx])
  }

  lemma AddingKeepsInv(s: State, businesses: set<Id>, business: Id, key: Id)
    requires Inv(s) && key !in s.keys && businesses <= s.businesses + {business}
    ensures Inv(s.(businesses := businesses, keys := s.keys[key := ApiKey(business, None)]))
  {
    var keys := s.keys[key := ApiKey(business, None)];
    forall b, k | Active(s.keys, b, k) ensures Active(keys, b, k) {}
    assert Active(keys, business, key);
    forall b | b in businesses ensures CanAuthenticate(keys, b) {
      if b != business {
        assert CanAuthenticate(s.keys, b);
        var k :| Active(s.keys, b, k);
        assert Active(keys, b, k);
      }
    }
    forall tx | tx in s.open ensures StillTrue(keys, s.open[tx]) {
      assert StillTrue(s.keys, s.open[tx]);
    }
  }

  lemma CommitKeepsInv(locking: bool, s: State, tx: Id)
    requires Inv(s) && Enabled(locking, s, Commit(tx))
    ensures Inv(Next(locking, s, Commit(tx)))
  {
    var s' := Next(locking, s, Commit(tx));
    var r := s.open[tx];
    assert StillTrue(s.keys, r);
    forall b | b in s.businesses ensures CanAuthenticate(s'.keys, b) {
      assert CanAuthenticate(s.keys, b);
      var k :| Active(s.keys, b, k) && (b == r.business ==> k != r.key);
      assert Active(s'.keys, b, k);
    }
    forall other | other in s'.open ensures StillTrue(s'.keys, s'.open[other]) {
      OthersUnmoved(s, s'.keys, r, s.open[other], Some(r.started));
    }
  }

  /** Revoking a key changes nothing another business's revocation relies on. */
  lemma OthersUnmoved(s: State, keys: map<Id, ApiKey>, r: Revocation, other: Revocation, at: Option<Time>)
    requires StillTrue(s.keys, other) && other.business != r.business && Active(s.keys, r.business, r.key)
    requires keys == s.keys[r.key := s.keys[r.key].(revokedAt := at)]
    ensures StillTrue(keys, other)
  {
    forall k | Active(s.keys, other.business, k) ensures Active(keys, other.business, k) {}
  }

  lemma StepKeepsInv(s: State, step: Step)
    requires Inv(s) && Enabled(true, s, step)
    ensures Inv(Next(true, s, step))
  {
    if step.CreateBusiness? {
      AddingKeepsInv(s, s.businesses + {step.business}, step.business, step.key);
    } else if step.Issue? {
      AddingKeepsInv(s, s.businesses, step.business, step.key);
    } else if step.Commit? {
      CommitKeepsInv(true, s, step.tx);
    }
  }

  lemma {:induction false} RunKeepsInv(s: State, steps: seq<Step>)
    requires Inv(s) && Run(true, s, steps).Some?
    ensures Inv(Run(true, s, steps).value)
    decreases |steps|
  {
    if steps != [] {
      StepKeepsInv(s, steps[0]);
      RunKeepsInv(Next(true, s, steps[0]), steps[1..]);
    }
  }

  /** Under the lock, every visible business has an active key in every reachable state. */
  lemma EveryBusinessCanAuthenticate(s: State)
    requires Reached(true, s)
    ensures NoneLockedOut(s.businesses, s.keys)
  {
    var steps :| Run(true, Initial(), steps) == Some(s);
    RunKeepsInv(Initial(), steps);
  }

  ghost predicate KeepsRevoked(keys: map<Id, ApiKey>, keys': map<Id, ApiKey>) {
    forall k :: k in keys ==>
      k in keys' && keys'[k].business == keys[k].business && (keys[k].revokedAt.Some? ==> keys'[k] == keys[k])
  }

  /** And a revocation, with its moment, is final. */
  lemma {:induction false} RevokedForGood(s: State, steps: seq<Step>)
    requires Inv(s) && Run(true, s, steps).Some?
    ensures KeepsRevoked(s.keys, Run(true, s, steps).value.keys)
    decreases |steps|
  {
    if steps != [] {
      var next := Next(true, s, steps[0]);
      StepKeepsInv(s, steps[0]);
      RevokedForGood(next, steps[1..]);
      if steps[0].Commit? {
        assert StillTrue(s.keys, s.open[steps[0].tx]);
      }
      assert KeepsRevoked(s.keys, next.keys);
    }
  }

  // ----- One revocation, statement by statement

  /** A revocation that nobody interleaves with does what `Revoked` says. */
  lemma RevokeAlone(locking: bool, s: State, tx: Id, business: Id, key: Id, started: Time) returns (steps: seq<Step>)
    requires tx !in s.open && business in s.businesses && started <= s.now
    requires forall other :: other in s.open ==> s.open[other].business != business && s.open[other].key != key
    ensures Run(locking, s, steps) == Some(s.(keys := Revoked(s.keys, business, key, started).0))
  {
    var locked := Next(locking, s, Lock(tx, business, key, started));
    assert s.open[tx := Revocation(business, key, started, Locked)] - {tx} == s.open;
    if !Active(s.keys, business, key) {
      steps := [Lock(tx, business, key, started), Find(tx)];
    } else if !AnotherActive(s.keys, business, key) {
      steps := [Lock(tx, business, key, started), Find(tx), Check(tx)];
    } else {
      steps := [Lock(tx, business, key, started), Find(tx), Check(tx), Update(tx), Commit(tx)];
    }
    RunLocked(locking, locked, tx, steps[1..]);
  }

  lemma RunLocked(locking: bool, s: State, tx: Id, steps: seq<Step>)
    requires tx in s.open && s.open[tx].phase == Locked
    requires forall other :: other in s.open && other != tx ==> s.open[other].key != s.open[tx].key
    requires var r := s.open[tx];
             steps == if !Active(s.keys, r.business, r.key) then [Find(tx)]
                      else if !AnotherActive(s.keys, r.business, r.key) then [Find(tx), Check(tx)]
                      else [Find(tx), Check(tx), Update(tx), Commit(tx)]
    ensures Run(locking, s, steps) ==
            Some(Leave(s, tx).(keys := Revoked(s.keys, s.open[tx].business, s.open[tx].key, s.open[tx].started).0))
  {
    var r := s.open[tx];
    var found := Next(locking, s, Find(tx));
    if Active(s.keys, r.business, r.key) {
      assert steps[1..][0] == Check(tx);
      var checked := Next(locking, found, Check(tx));
      if AnotherActive(s.keys, r.business, r.key) {
        assert steps[1..] == [Check(tx), Update(tx), Commit(tx)];
        assert steps[1..][1..] == [Update(tx), Commit(tx)];
        assert Run(locking, s, steps) == Run(locking, checked, [Update(tx), Commit(tx)]);
        var updated := Next(locking, checked, Update(tx));
        assert [Update(tx), Commit(tx)][1..] == [Commit(tx)];
        RunOne(locking, updated, Commit(tx));
        assert Leave(updated, tx) == Leave(s, tx);
      } else {
        assert steps[1..] == [Check(tx)];
        RunOne(locking, found, Check(tx));
        assert Leave(found, tx) == Leave(s, tx);
      }
    } else {
      RunOne(locking, s, Find(tx));
    }
  }

  lemma RunOne(locking: bool, s: State, step: Step)
    requires Enabled(locking, s, step)
    ensures Run(locking, s, [step]) == Some(Next(locking, s, step))
  {
    assert [step][1..] == [];
  }

  // ----- Without the lock

  lemma {:induction false} RunThen(locking: bool, s: State, steps: seq<Step>, step: Step)
    requires Run(locking, s, steps).Some? && Enabled(locking, Run(locking, s, steps).value, step)
    ensures Run(locking, s, steps + [step]) == Some(Next(locking, Run(locking, s, steps).value, step))
    decreases |steps|
  {
    if steps == [] {
      RunOne(locking, s, step);
      assert steps + [step] == [step];
    } else {
      assert (steps + [step])[1..] == steps[1..] + [step];
      RunThen(locking, Next(locking, s, steps[0]), steps[1..], step);
    }
  }

  lemma Extend(locking: bool, s: State, step: Step) returns (s': State)
    requires Reached(locking, s) && Enabled(locking, s, step)
    ensures s' == Next(locking, s, step) && Reached(locking, s')
  {
    var steps :| Run(locking, Initial(), steps) == Some(s);
    RunThen(locking, Initial(), steps, step);
    s' := Next(locking, s, step);
  }

  lemma TwoKeys() returns (s: State)
    ensures Reached(false, s)
    ensures s == State({0}, map[1 := ApiKey(0, None), 2 := ApiKey(0, None)], map[], 0)
  {
    s := Initial();
    assert Run(false, s, []) == Some(s);
    s := Extend(false, s, CreateBusiness(0, 1));
    s := Extend(false, s, Issue(0, 2));
  }

  lemma BothLock(s0: State) returns (s: State)
    requires Reached(false, s0)
    requires s0 == State({0}, map[1 := ApiKey(0, None), 2 := ApiKey(0, None)], map[], 0)
    ensures Reached(false, s)
    ensures s == s0.(open := map[1 := Revocation(0, 1, 0, Locked), 2 := Revocation(0, 2, 0, Locked)])
  {
    s := Extend(false, s0, Lock(1, 0, 1, 0));
    s := Extend(false, s, Lock(2, 0, 2, 0));
  }

  lemma BothFind(s0: State) returns (s: State)
    requires Reached(false, s0)
    requires s0 == State({0}, map[1 := ApiKey(0, None), 2 := ApiKey(0, None)], map[], 0)
    ensures Reached(false, s)
    ensures s == s0.(open := map[1 := Revocation(0, 1, 0, Found), 2 := Revocation(0, 2, 0, Found)])
  {
    s := BothLock(s0);
    s := Extend(false, s, Find(1));
    s := Extend(false, s, Find(2));
  }

  /** Two revocations each see the other's key as still active. */
  lemma BothCheck(s0: State) returns (s: State)
    requires Reached(false, s0)
    requires s0 == State({0}, map[1 := ApiKey(0, None), 2 := ApiKey(0, None)], map[], 0)
    ensures Reached(false, s)
    ensures s == s0.(open := map[1 := Revocation(0, 1, 0, Checked), 2 := Revocation(0, 2, 0, Checked)])
  {
    s := BothFind(s0);
    assert Active(s.keys, 0, 1) && Active(s.keys, 0, 2);
    s := Extend(false, s, Check(1));
    s := Extend(false, s, Check(2));
  }

  lemma BothCommit(s0: State) returns (s: State)
    requires Reached(false, s0)
    requires s0.businesses == {0} && s0.keys == map[1 := ApiKey(0, None), 2 := ApiKey(0, None)]
    requires s0.open == map[1 := Revocation(0, 1, 0, Checked), 2 := Revocation(0, 2, 0, Checked)]
    ensures Reached(false, s) && !NoneLockedOut(s.businesses, s.keys)
  {
    s := Extend(false, s0, Update(1));
    s := Extend(false, s, Update(2));
    s := Extend(false, s, Commit(1));
    s := Extend(false, s, Commit(2));
    assert 0 in s.businesses && forall k :: !Active(s.keys, 0, k);
  }

  /** No business is ever locked out if and only if revocations take the business row lock. */
  lemma NoneLockedOutIffLocked(locking: bool)
    ensures locking <==> forall s :: Reached(locking, s) ==> NoneLockedOut(s.businesses, s.keys)
  {
    if locking {
      forall s | Reached(locking, s) ensures NoneLockedOut(s.businesses, s.keys) {
        EveryBusinessCanAuthenticate(s);
      }
    } else {
      var two := TwoKeys();
      var checked := BothCheck(two);
      var neither := BothCommit(checked);
    }
  }

  // ----- The table

  class ApiKeyTable {
    var businesses: set<Id>
    var keys: map<Id, ApiKey>

    ghost predicate Valid()
      reads this
    {
      NoneLockedOut(businesses, keys)
    }

    constructor ()
      ensures Valid() && businesses == {} && keys == map[]
    {
      businesses, keys := {}, map[];
    }

    method CreateBusiness(business: Id, key: Id)
      requires Valid() && business !in businesses && key !in keys
      modifies this
      ensures Valid() && businesses == old(businesses) + {business}
      ensures keys == old(keys)[key := ApiKey(business, None)]
    {
      AddingKeepsInv(State(businesses, keys, map[], 0), businesses + {business}, business, key);
      keys := keys[key := ApiKey(business, None)];
      businesses := businesses + {business};
    }

    method Issue(business: Id, key: Id)
      requires Valid() && business in businesses && key !in keys
      modifies this`keys
      ensures Valid() && keys == old(keys)[key := ApiKey(business, None)]
    {
      AddingKeepsInv(State(businesses, keys, map[], 0), businesses, business, key);
      keys := keys[key := ApiKey(business, None)];
    }

    /** Revoking twice is a no-op; the last active key cannot be revoked. */
    method RevokeApiKey(business: Id, key: Id, now: Time) returns (result: Result<ApiKey, Fault>)
      requires Valid()
      modifies this`keys
      ensures (keys, result) == Revoked(old(keys), business, key, now)
      ensures result == Err(NotFound) <==> key !in old(keys) || old(keys)[key].business != business
      ensures result == Err(LastActiveKey) <==>
                && key in old(keys) && old(keys)[key] == ApiKey(business, None)
                && forall other :: other in old(keys) && old(keys)[other] == ApiKey(business, None) ==> other == key
      ensures result.Err? ==> keys == old(keys)
      ensures result.Ok? ==>
                && result.value == ApiKey(business, if old(keys)[key].revokedAt.Some? then old(keys)[key].revokedAt else Some(now))
                && keys == old(keys)[key := result.value]
      ensures Valid()
    {
      if key !in keys || keys[key].business != business {
        return Err(NotFound);
      }
      if keys[key].revokedAt.Some? {
        return Ok(keys[key]);
      }
      if !exists other :: other in keys && other != key && keys[other].business == business && keys[other].revokedAt.None? {
        return Err(LastActiveKey);
      }
      RevokingKeepsAccess(businesses, keys, business, key, now);
      var row := keys[key].(revokedAt := Some(now));
      keys := keys[key := row];
      result := Ok(row);
    }
  }

  lemma RevokingKeepsAccess(businesses: set<Id>, keys: map<Id, ApiKey>, business: Id, key: Id, now: Time)
    requires NoneLockedOut(businesses, keys)
    ensures NoneLockedOut(businesses, Revoked(keys, business, key, now).0)
  {
    var keys' := Revoked(keys, business, key, now).0;
    if keys' != keys {
      forall b | b in businesses ensures CanAuthenticate(keys', b) {
        assert CanAuthenticate(keys, b);
        var k :| Active(keys, b, k) && (b == business ==> k != key);
        assert Active(keys', b, k);
      }
    }
  }
}
