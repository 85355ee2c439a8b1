/** From the card to the answer: the request sent for a key carries that key's card token and its invoice's total, and
    what the token decides is what the key is told. */
module PaymentTokens {
  import opened Common
  import opened Config
  import opened Schema
  import opened InvoiceState
  import opened Psp
  import opened Transactions
  import opened PaymentProtocol
  import opened PaymentInvariant
  import opened PaymentPreservation
  import opened PaymentTheorems

  ghost predicate HandlersCarry(keys: map<KeyId, KeyRow>, handlers: map<Id, Handler>) {
    forall k, a :: k in keys && keys[k].attempt == Some(a) && a in handlers && handlers[a].ToSend? ==>
      handlers[a].token == keys[k].fingerprint.cardToken
  }

  ghost predicate SendsCarry(keys: map<KeyId, KeyRow>, sends: seq<ChargeRequest>) {
    forall k, j :: k in keys && 0 <= j < |sends| && keys[k].attempt == Some(sends[j].attempt) ==>
      sends[j].token == keys[k].fingerprint.cardToken
  }

  /** What the mock decides for a token. */
  predicate DecidedBy(token: string, outcome: Settlement) {
    if token == "tok_success" || token == "tok_timeout" then outcome.Succeeded?
    else if token == "tok_insufficient_funds" then outcome == Settlement.Failed("insufficient_funds")
    else if token == "tok_card_declined" then outcome == Settlement.Failed("card_declined")
    else token != "tok_network_error" && outcome == Settlement.Failed("invalid_card_token")
  }

  predicate AskedFor(request: ChargeRequest, attempt: Id, outcome: Settlement) {
    request.attempt == attempt && DecidedBy(request.token, outcome)
  }

  ghost predicate ChargesDecided(sends: seq<ChargeRequest>, charges: map<Id, Charge>) {
    forall a :: a in charges ==> exists j :: 0 <= j < |sends| && AskedFor(sends[j], a, charges[a].outcome)
  }

  ghost predicate TokensOk(s: State) {
    && HandlersCarry(s.db.keys, s.handlers)
    && SendsCarry(s.db.keys, s.sends)
    && ChargesDecided(s.sends, s.charges)
  }

  lemma ClaimKeepsTokens(t: Timing, s: State, step: Step)
    requires Inv(t, s) && TokensOk(s) && Enabled(t, s, step) && step.ClaimInvoice?
    ensures TokensOk(Next(t, s, step))
  {
    hide RowsOk, Agree, EventsOk, EventsOwned, ChargesOk, OutcomesOk, WorkOk, ScheduleOk, MoneyOk;
    forall k | k in s.db.keys && s.db.keys[k].attempt.Some? ensures s.db.keys[k].attempt.value in s.db.attempts {
      assert KeyRowOk(k.business, s.db.keys[k], s.db.attempts);
    }
  }

  lemma SendKeepsTokens(t: Timing, s: State, attempt: Id)
    requires TokensOk(s) && Enabled(t, s, Send(attempt))
    ensures TokensOk(Next(t, s, Send(attempt)))
  {
    var sends := Next(t, s, Send(attempt)).sends;
    assert forall j :: 0 <= j < |s.sends| ==> sends[j] == s.sends[j];
  }

  lemma ReceiveKeepsTokens(t: Timing, s: State, request: nat, pspRef: string)
    requires TokensOk(s) && Enabled(t, s, PspReceives(request, pspRef))
    ensures TokensOk(Next(t, s, PspReceives(request, pspRef)))
  {
    var r := s.sends[request];
    var decision := Decide(r.token, pspRef, t.psp);
    assert decision.Some? ==> AskedFor(r, r.attempt, decision.value.0);
  }

  /** Every other step keeps the keys' tokens and adds no request and no charge. */
  lemma TokensFrame(s: State, s': State)
    requires TokensOk(s) && s'.sends == s.sends && s'.charges == s.charges
    requires forall a :: a in s'.handlers ==> a in s.handlers && s'.handlers[a] == s.handlers[a]
    requires forall k :: k in s'.db.keys && s'.db.keys[k].attempt.Some? ==>
               k in s.db.keys && s.db.keys[k].attempt == s'.db.keys[k].attempt
               && s.db.keys[k].fingerprint == s'.db.keys[k].fingerprint
    ensures TokensOk(s')
  {
  }

  lemma SettleFrame(db: Db, attempt: Id, settlement: Settlement, now: Time)
    ensures var keys := Settle(db, attempt, settlement, now).0.keys;
            keys.Keys == db.keys.Keys
            && forall k :: k in keys ==> keys[k].attempt == db.keys[k].attempt && keys[k].fingerprint == db.keys[k].fingerprint
  {
  }

  lemma OtherStepFrame(t: Timing, s: State, step: Step)
    requires Enabled(t, s, step) && !step.ClaimInvoice? && !step.Send? && !step.PspReceives?
    ensures var next := Next(t, s, step);
            && next.sends == s.sends && next.charges == s.charges
            && (forall a :: a in next.handlers ==> a in s.handlers && next.handlers[a] == s.handlers[a])
            && (forall k :: k in next.db.keys && next.db.keys[k].attempt.Some? ==>
                  k in s.db.keys && s.db.keys[k].attempt == next.db.keys[k].attempt
                  && s.db.keys[k].fingerprint == next.db.keys[k].fingerprint)
  {
    hide Settle, Psp.Record, MayAnswerCharge, MayAnswerLookup, AfterLook, AfterCharge, LeaseAll, DueWork, DueColumn;
    if step.SettleAttempt? {
      SettleFrame(s.db, step.work.attempt, step.work.settlement, s.now);
    }
  }

  lemma StepKeepsTokens(t: Timing, s: State, step: Step)
    requires Inv(t, s) && TokensOk(s) && Enabled(t, s, step)
    ensures TokensOk(Next(t, s, step))
  {
    hide Inv, TokensOk, Next, Enabled;
    if step.ClaimInvoice? {
      ClaimKeepsTokens(t, s, step);
    } else if step.Send? {
      SendKeepsTokens(t, s, step.attempt);
    } else if step.PspReceives? {
      ReceiveKeepsTokens(t, s, step.request, step.pspRef);
    } else {
      OtherStepFrame(t, s, step);
      TokensFrame(s, Next(t, s, step));
    }
  }

  lemma {:induction false} RunKeepsTokens(t: Timing, s: State, steps: seq<Step>)
    requires Sound(t) && Inv(t, s) && TokensOk(s) && Run(t, s, steps).Some?
    ensures TokensOk(Run(t, s, steps).value)
    decreases |steps|
  {
    hide Inv, TokensOk;
    if steps != [] {
      StepKeepsInv(t, s, steps[0]);
      StepKeepsTokens(t, s, steps[0]);
      RunKeepsTokens(t, Next(t, s, steps[0]), steps[1..]);
    }
  }

  lemma ReachableTokens(t: Timing, s: State)
    requires Sound(t) && Reachable(t, s)
    ensures TokensOk(s)
  {
    var steps :| Run(t, Initial(), steps) == Some(s);
    InitialInv(t);
    RunKeepsTokens(t, Initial(), steps);
  }

  /** The one request sent for a key carries the card token of the request the key stands for, and asks for its
      invoice's total. */
  lemma RequestsCarryTheKey(t: Timing, s: State, key: KeyId, request: nat)
    requires Sound(t) && Reachable(t, s) && SentFor(s, key, request)
    ensures var fingerprint := s.db.keys[key].fingerprint;
            && s.sends[request].token == fingerprint.cardToken
            && fingerprint.invoice in s.db.invoices
            && s.sends[request].amount == s.db.invoices[fingerprint.invoice].total
            && s.db.invoices[fingerprint.invoice].business == key.business
  {
    ReachableTokens(t, s);
    ReachableInv(t, s);
    assert KeyRowOk(key.business, s.db.keys[key], s.db.attempts);
  }

  /** What a key is told is what its card token decides: 200 only for a card that pays, the PSP's own reason for one it
      declines, and no record only if nothing was recorded. */
  lemma TokenDecidesAnswer(t: Timing, s: State, key: KeyId)
    requires Sound(t) && Reachable(t, s)
    requires key in s.db.keys && s.db.keys[key].attempt.Some? && s.db.keys[key].response.Some?
    ensures var (token, reply) := (s.db.keys[key].fingerprint.cardToken, s.db.keys[key].response.value);
            || (reply.status == 402 && reply.code == Some("psp_no_record") && s.db.keys[key].attempt.value !in s.charges)
            || (if token == "tok_success" || token == "tok_timeout" then reply.status == 200 && reply.code.None?
                else if token == "tok_insufficient_funds" then reply.status == 402 && reply.code == Some("insufficient_funds")
                else if token == "tok_card_declined" then reply.status == 402 && reply.code == Some("card_declined")
                else token != "tok_network_error" && reply.status == 402 && reply.code == Some("invalid_card_token"))
  {
    ReachableTokens(t, s);
    LeadsReflexive(t, s);
    StoredAnswersStayTrue(t, s, key, s);
    var a := s.db.keys[key].attempt.value;
    if a in s.charges {
      var j :| 0 <= j < |s.sends| && AskedFor(s.sends[j], a, s.charges[a].outcome);
      assert s.sends[j].token == s.db.keys[key].fingerprint.cardToken;
    }
  }
}
