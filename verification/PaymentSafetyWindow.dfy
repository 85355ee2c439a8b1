/** How much delay the protocol tolerates: the exact condition under which no invoice is ever charged twice. */
module PaymentSafetyWindow {
  import opened Common
  import opened Config
  import opened Sql
  import opened Schema
  import opened InvoiceState
  import opened Psp
  import opened Transactions
  import opened PaymentProtocol
  import opened PaymentInvariant
  import opened PaymentPreservation
  import opened PaymentTheorems

  lemma Extend(t: Timing, s: State, step: Step)
    requires Reachable(t, s) && Enabled(t, s, step)
    ensures Reachable(t, Next(t, s, step))
  {
    LeadsStep(t, s, step);
    LeadsTransitive(t, Initial(), s, Next(t, s, step));
  }

  // A run in which the first charge request arrives after the reconciler has given it up.

  const KEY: KeyId := KeyId(0, "first")
  const OTHER_KEY: KeyId := KeyId(0, "second")
  const PAYMENT: Fingerprint := Fingerprint(0, "tok_success")

  function LateAttempt(t: Timing): Attempt {
    Attempt(0, 0, 100, AttemptStatus.Pending, None, None, 0, None, Some(t.config.FirstLook()), 0)
  }

  function Sent(t: Timing, attempt: Id, at: Time): ChargeRequest {
    ChargeRequest(attempt, 100, "tok_success", at)
  }

  lemma Claims(t: Timing) returns (s: State)
    ensures Reachable(t, s)
    ensures s == Initial().(db := s.db, handlers := map[1 := ToSend("tok_success")])
    ensures s.db.invoices == map[0 := Invoice(0, 100, InvoiceStatus.Processing, None, None)]
    ensures s.db.attempts == map[1 := LateAttempt(t)]
    ensures s.db.keys == map[KEY := KeyRow(PAYMENT, Some(1), None)]
  {
    s := Initial();
    LeadsReflexive(t, s);
    Extend(t, s, CreateInvoice(0, 0, 100));
    s := Next(t, s, CreateInvoice(0, 0, 100));
    Extend(t, s, ClaimInvoice(KEY, PAYMENT, 1, 0));
    s := Next(t, s, ClaimInvoice(KEY, PAYMENT, 1, 0));
  }

  lemma SendsLate(t: Timing) returns (s: State)
    ensures Reachable(t, s)
    ensures s.db.invoices == map[0 := Invoice(0, 100, InvoiceStatus.Processing, None, None)]
    ensures s.db.attempts == map[1 := LateAttempt(t)]
    ensures s.db.keys == map[KEY := KeyRow(PAYMENT, Some(1), None)]
    ensures s.explaining == map[] && s.charges == map[] && s.work == multiset{}
    ensures s.sends == [Sent(t, 1, t.sendDelay)]
    ensures s.now == t.sendDelay + t.config.pspTimeout
  {
    s := Claims(t);
    Extend(t, s, Tick(t.sendDelay));
    s := Next(t, s, Tick(t.sendDelay));
    Extend(t, s, Send(1));
    s := Next(t, s, Send(1));
    Extend(t, s, Tick(t.config.pspTimeout));
    s := Next(t, s, Tick(t.config.pspTimeout));
  }

  lemma LeasesIt(t: Timing, s0: State) returns (s: State)
    requires !Timely(t) && Reachable(t, s0)
    requires s0.db.attempts == map[1 := LateAttempt(t)] && s0.work == multiset{}
    requires s0.now == t.sendDelay + t.config.pspTimeout
    ensures Reachable(t, s)
    ensures s.db.attempts == map[1 := Leased(LateAttempt(t), s.now, RECONCILE_LEASE)]
    ensures s == s0.(db := s0.db.(attempts := s.db.attempts), work := multiset{Due(1, 1, true)})
  {
    hide IsFirst, DueColumn, LeaseAll, DueWork;
    LeasesOne(s0.db.attempts, {}, 1, s0.now, RECONCILE_LEASE, t.config.notFoundGrace);
    Extend(t, s0, ClaimDue([1], {}));
    s := Next(t, s0, ClaimDue([1], {}));
    assert s.work == multiset{Due(1, 1, true)};
  }

  lemma FindsNothing(t: Timing, s0: State) returns (s: State)
    requires !Timely(t) && Reachable(t, s0)
    requires s0.db.attempts == map[1 := LateAttempt(t)] && s0.charges == map[] && s0.work == multiset{}
    requires s0.now == t.sendDelay + t.config.pspTimeout
    ensures Reachable(t, s)
    ensures s.work == multiset{Settling(1, Settlement.Failed("psp_no_record"))}
    ensures s.db.attempts == map[1 := Leased(LateAttempt(t), s.now, RECONCILE_LEASE)]
    ensures s == s0.(db := s0.db.(attempts := s.db.attempts), work := s.work)
  {
    s := LeasesIt(t, s0);
    var due := Due(1, 1, true);
    Extend(t, s, Look(due, Http(404, None)));
    s := Next(t, s, Look(due, Http(404, None)));
  }

  lemma GivesUp(t: Timing, s0: State) returns (s: State)
    requires Reachable(t, s0)
    requires s0.db.invoices == map[0 := Invoice(0, 100, InvoiceStatus.Processing, None, None)]
    requires s0.db.attempts == map[1 := Leased(LateAttempt(t), s0.now, RECONCILE_LEASE)]
    requires s0.db.keys == map[KEY := KeyRow(PAYMENT, Some(1), None)]
    requires s0.work == multiset{Settling(1, Settlement.Failed("psp_no_record"))}
    ensures Reachable(t, s)
    ensures s.db.invoices == map[0 := Invoice(0, 100, InvoiceStatus.Open, None, None)]
    ensures 1 in s.db.attempts && s.db.attempts[1].invoice == 0 && 2 !in s.db.attempts && OTHER_KEY !in s.db.keys
    ensures s == s0.(db := s.db, work := s.work)
  {
    var settle := Settling(1, Settlement.Failed("psp_no_record"));
    Extend(t, s0, SettleAttempt(settle));
    s := Next(t, s0, SettleAttempt(settle));
    assert OTHER_KEY != KEY by { assert OTHER_KEY.key[0] != KEY.key[0]; }
  }

  lemma PaysAgain(t: Timing, s0: State) returns (s: State)
    requires Reachable(t, s0)
    requires s0.db.invoices == map[0 := Invoice(0, 100, InvoiceStatus.Open, None, None)]
    requires 1 in s0.db.attempts && s0.db.attempts[1].invoice == 0
    requires 2 !in s0.db.attempts && OTHER_KEY !in s0.db.keys && s0.explaining == map[]
    ensures Reachable(t, s)
    ensures 1 in s.db.attempts && s.db.attempts[1].invoice == 0 && 2 in s.db.attempts && s.db.attempts[2].invoice == 0
    ensures s.sends == s0.sends + [Sent(t, 2, s0.now)] && s.charges == s0.charges && s.now == s0.now
  {
    Extend(t, s0, ClaimInvoice(OTHER_KEY, PAYMENT, 2, s0.now));
    s := Next(t, s0, ClaimInvoice(OTHER_KEY, PAYMENT, 2, s0.now));
    Extend(t, s, Send(2));
    s := Next(t, s, Send(2));
  }

  lemma BothArrive(t: Timing, s0: State) returns (s: State)
    requires Reachable(t, s0) && s0.charges == map[]
    requires 1 in s0.db.attempts && s0.db.attempts[1].invoice == 0 && 2 in s0.db.attempts && s0.db.attempts[2].invoice == 0
    requires s0.sends == [Sent(t, 1, t.sendDelay), Sent(t, 2, s0.now)]
    requires s0.now == t.sendDelay + t.config.pspTimeout
    ensures Reachable(t, s) && TookMoney(s, 1, 0) && TookMoney(s, 2, 0)
  {
    Extend(t, s0, PspReceives(1, "second charge"));
    s := Next(t, s0, PspReceives(1, "second charge"));
    assert s.charges.Keys == {2};
    Extend(t, s, PspReceives(0, "first charge"));
    s := Next(t, s, PspReceives(0, "first charge"));
  }

  /** Without Timely, some run charges an invoice twice. */
  lemma UntimelyChargesTwice(t: Timing)
    requires !Timely(t)
    ensures exists s :: Reachable(t, s) && !NoDoubleCharge(s)
  {
    var sent := SendsLate(t);
    var concluded := FindsNothing(t, sent);
    var failed := GivesUp(t, concluded);
    var retried := PaysAgain(t, failed);
    var charged := BothArrive(t, retried);
    assert TookMoney(charged, 1, 0) && TookMoney(charged, 2, 0);
  }

  /** No run charges an invoice twice if and only if requests are Timely. The service's own check, that the PSP
      timeout is below the grace window, does not imply it: it says nothing of the delay before sending. */
  lemma NoDoubleChargeIffTimely(t: Timing)
    requires t.config.Validate().Ok?
    ensures (forall s :: Reachable(t, s) ==> NoDoubleCharge(s)) <==> Timely(t)
  {
    if Timely(t) {
      forall s | Reachable(t, s) ensures NoDoubleCharge(s) {
        ChargedAtMostOnce(t, s);
      }
    } else {
      UntimelyChargesTwice(t);
    }
  }
}
