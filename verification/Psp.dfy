/** The payment service provider: how its replies are read, and the mock that produces them. */
module Psp {
  import opened Common

  datatype Settlement = Succeeded(pspRef: string) | Failed(code: string)

  datatype ChargeBody = Outcome(settlement: Settlement) | StillProcessing

  /** A reply as the client sees it. `body` is absent when it does not parse. */
  datatype HttpReply = Http(status: nat, body: Option<ChargeBody>) | TransportError

  datatype ChargeResult = Settled(settlement: Settlement) | Indeterminate

  datatype ChargeLookup = Known(settlement: Settlement) | Processing | Unknown | Inconclusive

  function ReadCharge(reply: HttpReply): ChargeResult {
    match reply
    case Http(200, Some(Outcome(settlement))) => Settled(settlement)
    case _ => Indeterminate
  }

  function ReadLookup(reply: HttpReply): ChargeLookup {
    match reply
    case Http(404, _) => Unknown
    case Http(200, Some(Outcome(settlement))) => Known(settlement)
    case Http(200, Some(StillProcessing)) => Processing
    case _ => Inconclusive
  }

  datatype Charge = Charge(amount: nat, outcome: Settlement, settlesAt: Time)

  datatype MockConfig = MockConfig(decisionDelay: Time, slowDelay: Time)

  /** The token table: the outcome and how long the reply takes. None: an error before anything is recorded. */
  function Decide(token: string, pspRef: string, config: MockConfig): Option<(Settlement, Time)> {
    if token == "tok_success" then Some((Succeeded(pspRef), config.decisionDelay))
    else if token == "tok_insufficient_funds" then Some((Failed("insufficient_funds"), config.decisionDelay))
    else if token == "tok_card_declined" then Some((Failed("card_declined"), config.decisionDelay))
    else if token == "tok_timeout" then Some((Succeeded(pspRef), config.slowDelay))
    else if token == "tok_network_error" then None
    else Some((Failed("invalid_card_token"), config.decisionDelay))
  }

  /** What the PSP holds after receiving a charge request. */
  function Record(
    charges: map<Id, Charge>, key: Id, amount: nat, token: string, pspRef: string, now: Time, config: MockConfig
  ): map<Id, Charge>
  {
    match Decide(token, pspRef, config)
    case None => charges
    case Some((outcome, delay)) =>
      if key in charges then charges else charges[key := Charge(amount, outcome, now + delay)]
  }

  function OutcomeReply(outcome: Settlement): HttpReply { Http(200, Some(Outcome(outcome))) }

  function Lookup(charges: map<Id, Charge>, key: Id, now: Time): HttpReply {
    if key !in charges then Http(404, None)
    else if now < charges[key].settlesAt then Http(200, Some(StillProcessing))
    else OutcomeReply(charges[key].outcome)
  }

  /** What may come back from charging. A 200 that carries an outcome is the PSP's own and true; in place of it the
      reply may be lost or garbled, or be any other status with any body. */
  predicate MayAnswerCharge(charges: map<Id, Charge>, key: Id, now: Time, reply: HttpReply) {
    reply.Http? && reply.status == 200 && reply.body.Some? && reply.body.value.Outcome? ==>
      key in charges && charges[key].settlesAt <= now && reply.body.value.settlement == charges[key].outcome
  }

  /** And from a lookup: besides, a 404 is the PSP's own. */
  predicate MayAnswerLookup(charges: map<Id, Charge>, key: Id, now: Time, reply: HttpReply) {
    && MayAnswerCharge(charges, key, now, reply)
    && (reply.Http? && reply.status == 404 ==> key !in charges)
  }

  /** For all replies: an outcome is read from a 200 that carries it and from nothing else, "no record" from a 404 and
      from nothing else. A reply that is lost, of another status, or does not parse settles nothing. */
  lemma OnlyDefiniteRepliesConclude(reply: HttpReply)
    ensures forall x :: ReadCharge(reply) == Settled(x) <==> reply == Http(200, Some(Outcome(x)))
    ensures forall x :: ReadLookup(reply) == Known(x) <==> reply == Http(200, Some(Outcome(x)))
    ensures ReadLookup(reply) == Unknown <==> reply.Http? && reply.status == 404
    ensures ReadLookup(reply) == Processing <==> reply == Http(200, Some(StillProcessing))
    ensures reply == TransportError || (reply.status != 200 && reply.status != 404) || (reply.status == 200 && reply.body.None?) ==>
              ReadCharge(reply) == Indeterminate && ReadLookup(reply) == Inconclusive
  {
  }

  /** Money actually taken, per charge key. */
  ghost function Taken(charges: map<Id, Charge>): map<Id, int> {
    map key | key in charges && charges[key].outcome.Succeeded? :: charges[key].amount
  }

  datatype Request = Request(key: Id, amount: nat, token: string, pspRef: string, at: Time)

  ghost function RecordAll(charges: map<Id, Charge>, requests: seq<Request>, config: MockConfig): map<Id, Charge>
    decreases |requests|
  {
    if requests == [] then charges
    else
      var r := requests[0];
      RecordAll(Record(charges, r.key, r.amount, r.token, r.pspRef, r.at, config), requests[1..], config)
  }

  /** Deduplication: whatever is received later, a recorded charge keeps its amount and outcome, and a key
      is charged only if some request carried it. */
  lemma {:induction false} RecordedForever(charges: map<Id, Charge>, requests: seq<Request>, config: MockConfig)
    ensures var final := RecordAll(charges, requests, config);
            && (forall key :: key in charges ==> key in final && final[key] == charges[key])
            && (forall key :: key in final && key !in charges ==>
                  exists j :: 0 <= j < |requests| && requests[j].key == key && requests[j].amount == final[key].amount)
    decreases |requests|
  {
    if requests != [] {
      var r := requests[0];
      var next := Record(charges, r.key, r.amount, r.token, r.pspRef, r.at, config);
      var final := RecordAll(next, requests[1..], config);
      RecordedForever(next, requests[1..], config);
      forall key | key in final && key !in charges
        ensures exists j :: 0 <= j < |requests| && requests[j].key == key && requests[j].amount == final[key].amount
      {
        if key in next {
          assert requests[0].key == key;
        } else {
          var j :| 0 <= j < |requests[1..]| && requests[1..][j].key == key && requests[1..][j].amount == final[key].amount;
          assert requests[j + 1].key == key && requests[j + 1].amount == final[key].amount;
        }
      }
    }
  }

  /** The mock itself: a guarded map of charges and a request counter. */
  class MockPsp {
    const config: MockConfig
    var charges: map<Id, Charge>
    var chargeRequests: nat

    constructor (config: MockConfig)
      ensures this.config == config && charges == map[] && chargeRequests == 0
    {
      this.config := config;
      charges := map[];
      chargeRequests := 0;
    }

    /** The reply, and the moment it is sent: the handler sleeps before answering a new charge. */
    method CreateCharge(key: Option<Id>, amount: nat, token: string, pspRef: string, now: Time)
      returns (reply: HttpReply, at: Time)
      modifies this
      ensures chargeRequests == old(chargeRequests) + 1
      ensures charges == if key.None? then old(charges)
                         else Record(old(charges), key.value, amount, token, pspRef, now, config)
      ensures at >= now
      ensures key.None? ==> reply == Http(400, None) && at == now
      ensures key.Some? && token == "tok_network_error" ==> ReadCharge(reply) == Indeterminate
      ensures key.Some? ==> MayAnswerCharge(charges, key.value, at, reply)
      // A new key is charged for the amount asked, unless the request fails at the edge; the token decides the outcome.
      ensures key.Some? && key.value !in old(charges) ==>
                && (key.value in charges <==> token != "tok_network_error")
                && (key.value in charges ==>
                      && charges[key.value].amount == amount
                      && charges[key.value].outcome ==
                           (if token == "tok_success" || token == "tok_timeout" then Succeeded(pspRef)
                            else if token == "tok_insufficient_funds" then Failed("insufficient_funds")
                            else if token == "tok_card_declined" then Failed("card_declined")
                            else Failed("invalid_card_token"))
                      && charges[key.value].settlesAt ==
                           now + (if token == "tok_timeout" then config.slowDelay else config.decisionDelay))
      // A definitive answer is the recorded outcome, and it is not given before the charge settles.
      ensures key.Some? && token != "tok_network_error" ==>
                && key.value in charges
                && (ReadCharge(reply) == Indeterminate <==> key.value in old(charges) && now < charges[key.value].settlesAt)
                && (ReadCharge(reply).Settled? ==>
                      ReadCharge(reply).settlement == charges[key.value].outcome && at >= charges[key.value].settlesAt)
    {
      chargeRequests := chargeRequests + 1;
      at := now;
      if key.None? {
        return Http(400, None), now;
      }
      match Decide(token, pspRef, config) {
        case None =>
          reply := Http(500, None);
        case Some((outcome, delay)) =>
          if key.value in charges {
            var existing := charges[key.value];
            reply := if now >= existing.settlesAt then OutcomeReply(existing.outcome) else Http(409, Some(StillProcessing));
          } else {
            charges := charges[key.value := Charge(amount, outcome, now + delay)];
            reply := OutcomeReply(outcome);
            at := now + delay;
          }
      }
    }

    method LookupCharge(key: Id, now: Time) returns (reply: HttpReply)
      ensures reply == Lookup(charges, key, now)
      ensures MayAnswerLookup(charges, key, now, reply)
      ensures ReadLookup(reply) == Unknown <==> key !in charges
      ensures ReadLookup(reply).Known? <==> key in charges && now >= charges[key].settlesAt
      ensures ReadLookup(reply).Known? ==> ReadLookup(reply).settlement == charges[key].outcome
    {
      if key !in charges {
        reply := Http(404, None);
      } else if now < charges[key].settlesAt {
        reply := Http(200, Some(StillProcessing));
      } else {
        reply := OutcomeReply(charges[key].outcome);
      }
    }
  }
}
