/** The payment protocol as a step system: request handlers, reconcilers, the network, the PSP and the clock.

    Every database transaction is one step, except that a claim whose compare-and-set fails stays open until it
    has read the invoice to explain the failure; meanwhile its key is locked. Steps may be taken in any order by
    any number of replicas. A crash or a timeout is work that is dropped, or simply never done. */
module PaymentProtocol {
  import opened Common
  import opened Config
  import opened Sql
  import opened Schema
  import opened InvoiceState
  import opened Psp
  import opened Transactions

  /** The configuration, plus the one bound it cannot enforce: how long after the claim began the charge request
      may still be sent. A request reaches the PSP within `pspTimeout` of being sent or not at all. */
  datatype Timing = Timing(config: Config, sendDelay: Time, psp: MockConfig)

  datatype Handler = ToSend(token: string) | AwaitingReply(sentAt: Time)

  datatype ChargeRequest = ChargeRequest(attempt: Id, amount: nat, token: string, sentAt: Time)

  /** What a reconciler holds between its transactions, or any worker before it settles. */
  datatype Work =
    | Due(attempt: Id, checks: nat, pastGrace: bool)
    | Rescheduling(attempt: Id, checks: nat)
    | Settling(attempt: Id, settlement: Settlement)

  datatype State = State(
    db: Db,
    explaining: map<KeyId, Fingerprint>,
    handlers: map<Id, Handler>,
    sends: seq<ChargeRequest>,
    charges: map<Id, Charge>,
    work: multiset<Work>,
    now: Time)

  function Initial(): State {
    State(Db(map[], map[], map[], []), map[], map[], [], map[], multiset{}, 0)
  }

  datatype Step =
    | CreateInvoice(invoice: Id, business: Id, total: nat)
    | Void(business: Id, invoice: Id)
    | ClaimInvoice(key: KeyId, fingerprint: Fingerprint, attempt: Id, started: Time)
    | Explain(key: KeyId)
    | Send(attempt: Id)
    | PspReceives(request: nat, pspRef: string)
    | HandlerHears(attempt: Id, reply: HttpReply)
    | HandlerGivesUp(attempt: Id)
    | ClaimDue(batch: seq<Id>, locked: set<Id>)
    | Look(due: Work, reply: HttpReply)
    | Reschedule(work: Work)
    | SettleAttempt(work: Work)
    | Crash(work: Work)
    | Tick(elapsed: Time)

  ghost predicate Enabled(t: Timing, s: State, step: Step) {
    match step
    case CreateInvoice(invoice, _, total) => invoice !in s.db.invoices && total > 0
    case Void(_, _) => true
    case ClaimInvoice(key, _, attempt, started) =>
      key !in s.explaining && attempt !in s.db.attempts && started <= s.now
    case Explain(key) => key in s.explaining
    case Send(attempt) =>
      && attempt in s.handlers && s.handlers[attempt].ToSend?
      && attempt in s.db.attempts
      && s.now <= s.db.attempts[attempt].createdAt + t.sendDelay
    case PspReceives(request, _) =>
      request < |s.sends| && s.now <= s.sends[request].sentAt + t.config.pspTimeout
    case HandlerHears(attempt, reply) =>
      && attempt in s.handlers && s.handlers[attempt].AwaitingReply?
      && (reply.TransportError? || s.now <= s.handlers[attempt].sentAt + t.config.pspTimeout)
      && MayAnswerCharge(s.charges, attempt, s.now, reply)
    case HandlerGivesUp(attempt) => attempt in s.handlers
    // Whatever rows others have locked, the first sixteen of the rest.
    case ClaimDue(batch, locked) => IsFirst(DueColumn(s.db.attempts, locked, s.now), BATCH_SIZE, batch)
    case Look(due, reply) =>
      due in s.work && due.Due? && MayAnswerLookup(s.charges, due.attempt, s.now, reply)
    case Reschedule(work) => work in s.work && work.Rescheduling?
    case SettleAttempt(work) => work in s.work && work.Settling?
    case Crash(work) => work in s.work
    case Tick(_) => true
  }

  /** What a reconciler holds after leasing a batch: for each row its check count and grace flag. */
  function DueWork(leased: map<Id, Attempt>, batch: seq<Id>, now: Time, grace: Time): seq<Work>
    requires forall j :: 0 <= j < |batch| ==> batch[j] in leased
  {
    seq(|batch|, j requires 0 <= j < |batch| =>
      Due(batch[j], leased[batch[j]].reconcileCount, PastGrace(leased[batch[j]], now, grace)))
  }

  /** What a handler goes on to do with the result of its charge: an outcome it settles, anything else it leaves. */
  function AfterCharge(attempt: Id, result: ChargeResult): multiset<Work> {
    match result
    case Settled(settlement) => multiset{Settling(attempt, settlement)}
    case Indeterminate => multiset{}
  }

  /** What a reconciler does with the PSP's answer about a due attempt. */
  function AfterLook(due: Work, answer: ChargeLookup): Work
    requires due.Due?
  {
    match answer
    case Known(settlement) => Settling(due.attempt, settlement)
    case Unknown =>
      if due.pastGrace then Settling(due.attempt, Settlement.Failed("psp_no_record")) else Rescheduling(due.attempt, due.checks)
    case Processing => Rescheduling(due.attempt, due.checks)
    case Inconclusive => Rescheduling(due.attempt, due.checks)
  }

  ghost function Next(t: Timing, s: State, step: Step): State
    requires Enabled(t, s, step)
  {
    match step
    case CreateInvoice(invoice, business, total) => s.(db := Created(s.db, invoice, business, total))
    case Void(business, invoice) => s.(db := Voided(s.db, business, invoice, s.now).0)
    case ClaimInvoice(key, fingerprint, attempt, started) =>
      if key in s.db.keys then s
      else if CasMatches(s.db, key.business, fingerprint.invoice, BeginPayment) then
        s.(db := ApplyClaim(s.db, key, fingerprint, attempt, started, t.config.FirstLook()),
           handlers := s.handlers[attempt := ToSend(fingerprint.cardToken)])
      else s.(explaining := s.explaining[key := fingerprint])
    case Explain(key) =>
      s.(db := Explained(s.db, key, s.explaining[key]).0, explaining := s.explaining - {key})
    case Send(attempt) =>
      s.(handlers := s.handlers[attempt := AwaitingReply(s.now)],
         sends := s.sends + [ChargeRequest(attempt, s.db.attempts[attempt].amount, s.handlers[attempt].token, s.now)])
    case PspReceives(request, pspRef) =>
      var r := s.sends[request];
      s.(charges := Record(s.charges, r.attempt, r.amount, r.token, pspRef, s.now, t.psp))
    case HandlerHears(attempt, reply) =>
      s.(handlers := s.handlers - {attempt}, work := s.work + AfterCharge(attempt, ReadCharge(reply)))
    case HandlerGivesUp(attempt) => s.(handlers := s.handlers - {attempt})
    case ClaimDue(batch, _) =>
      var leased := LeaseAll(s.db.attempts, batch, s.now, RECONCILE_LEASE);
      s.(db := s.db.(attempts := leased),
         work := s.work + multiset(DueWork(leased, batch, s.now, t.config.notFoundGrace)))
    case Look(due, reply) =>
      s.(work := s.work - multiset{due} + multiset{AfterLook(due, ReadLookup(reply))})
    case Reschedule(work) =>
      s.(db := Rescheduled(s.db, work.attempt, work.checks, s.now), work := s.work - multiset{work})
    case SettleAttempt(work) =>
      s.(db := Settle(s.db, work.attempt, work.settlement, s.now).0, work := s.work - multiset{work})
    case Crash(work) => s.(work := s.work - multiset{work})
    case Tick(elapsed) => s.(now := s.now + elapsed)
  }

  /** The state a run ends in, if every step of it is enabled when its turn comes. */
  ghost function Run(t: Timing, s: State, steps: seq<Step>): Option<State>
    decreases |steps|
  {
    if steps == [] then Some(s)
    else if Enabled(t, s, steps[0]) then Run(t, Next(t, s, steps[0]), steps[1..])
    else None
  }

  ghost predicate Leads(t: Timing, s: State, s': State) {
    exists steps :: Run(t, s, steps) == Some(s')
  }

  ghost predicate Reachable(t: Timing, s: State) {
    Leads(t, Initial(), s)
  }

  lemma {:induction false} RunAppends(t: Timing, s: State, before: seq<Step>, after: seq<Step>)
    requires Run(t, s, before).Some?
    ensures Run(t, s, before + after) == Run(t, Run(t, s, before).value, after)
    decreases |before|
  {
    if before == [] {
      assert before + after == after;
    } else {
      assert (before + after)[1..] == before[1..] + after;
      RunAppends(t, Next(t, s, before[0]), before[1..], after);
    }
  }

  lemma LeadsStep(t: Timing, s: State, step: Step)
    requires Enabled(t, s, step)
    ensures Leads(t, s, Next(t, s, step))
  {
    assert [step][1..] == [];
    assert Run(t, Next(t, s, step), []) == Some(Next(t, s, step));
    assert Run(t, s, [step]) == Some(Next(t, s, step));
  }

  lemma LeadsTransitive(t: Timing, s: State, s': State, s'': State)
    requires Leads(t, s, s') && Leads(t, s', s'')
    ensures Leads(t, s, s'')
  {
    var before :| Run(t, s, before) == Some(s');
    var after :| Run(t, s', after) == Some(s'');
    RunAppends(t, s, before, after);
    assert Run(t, s, before + after) == Some(s'');
  }

  lemma LeadsReflexive(t: Timing, s: State)
    ensures Leads(t, s, s)
  {
    assert Run(t, s, []) == Some(s);
  }
}
