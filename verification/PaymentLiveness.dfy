/** No invoice is stuck: from every reachable state, one reconciler pass after a long enough wait settles any
    pending attempt, whatever crashed before. */
module PaymentLiveness {
  import opened Common
  import opened Config
  import opened Schema
  import opened InvoiceState
  import opened Psp
  import opened Transactions
  import opened PaymentProtocol
  import opened PaymentInvariant
  import opened PaymentPreservation
  import opened PaymentTheorems

  ghost function Pending(attempts: map<Id, Attempt>): set<Id> {
    set a | a in attempts && attempts[a].status == AttemptStatus.Pending
  }

  /** What the PSP will turn out to have decided about an attempt, if nothing more reaches it. */
  function Verdict(s: State, attempt: Id): Settlement {
    if attempt in s.charges then s.charges[attempt].outcome else Settlement.Failed("psp_no_record")
  }

  /** Past any backoff, past the grace window, and past the moment a recorded charge settles. */
  function LongEnough(t: Timing, s: State, attempt: Id): Time {
    MAX_BACKOFF + t.config.notFoundGrace + 1 + if attempt in s.charges then s.charges[attempt].settlesAt else 0
  }

  lemma Lease(t: Timing, s: State, attempt: Id) returns (leased: State, due: Work)
    requires attempt in s.db.attempts && IsDue(s.db.attempts[attempt], s.now)
    requires PastGrace(s.db.attempts[attempt], s.now, t.config.notFoundGrace)
    ensures Leads(t, s, leased) && due.Due? && due.attempt == attempt && due.pastGrace && due in leased.work
    ensures leased == s.(db := s.db.(attempts := leased.db.attempts), work := leased.work)
    ensures leased.db.attempts == s.db.attempts[attempt := Leased(s.db.attempts[attempt], s.now, RECONCILE_LEASE)]
  {
    var others := s.db.attempts.Keys - {attempt};
    var claim := ClaimDue([attempt], others);
    LeasesOne(s.db.attempts, others, attempt, s.now, RECONCILE_LEASE, t.config.notFoundGrace);
    leased := Next(t, s, claim);
    LeadsStep(t, s, claim);
    due := Due(attempt, leased.db.attempts[attempt].reconcileCount, true);
  }

  lemma LookUp(t: Timing, s: State, due: Work) returns (looked: State)
    requires due in s.work && due.Due? && due.pastGrace
    requires due.attempt in s.charges ==> s.charges[due.attempt].settlesAt <= s.now
    ensures Leads(t, s, looked)
    ensures Settling(due.attempt, Verdict(s, due.attempt)) in looked.work && looked == s.(work := looked.work)
  {
    var look := Look(due, Psp.Lookup(s.charges, due.attempt, s.now));
    looked := Next(t, s, look);
    LeadsStep(t, s, look);
  }

  lemma LeasedStaysPending(attempts: map<Id, Attempt>, attempt: Id, now: Time)
    requires attempt in attempts && attempts[attempt].status == AttemptStatus.Pending
    ensures Pending(attempts[attempt := Leased(attempts[attempt], now, RECONCILE_LEASE)]) == Pending(attempts)
  {
  }

  lemma WaitLeaseAndLook(t: Timing, s: State, attempt: Id) returns (looked: State)
    requires Settleable(s.db, attempt) && s.db.attempts[attempt].reconcileAfter.Some?
    requires ScheduleRow(t, s.db.attempts[attempt], s.now)
    ensures Leads(t, s, looked)
    ensures Settling(attempt, Verdict(s, attempt)) in looked.work
    ensures looked.explaining == s.explaining && looked.db.invoices == s.db.invoices && looked.charges == s.charges
    ensures Pending(looked.db.attempts) == Pending(s.db.attempts)
    ensures Settleable(looked.db, attempt) && looked.db.attempts[attempt].invoice == s.db.attempts[attempt].invoice
  {
    var wait := LongEnough(t, s, attempt);
    var waited := Next(t, s, Tick(wait));
    LeadsStep(t, s, Tick(wait));
    var leased, due := Lease(t, waited, attempt);
    LeasedStaysPending(s.db.attempts, attempt, waited.now);
    looked := LookUp(t, leased, due);
    LeadsTransitive(t, s, waited, leased);
    LeadsTransitive(t, s, leased, looked);
  }

  lemma SettleWork(t: Timing, s: State, attempt: Id, settlement: Settlement) returns (settled: State)
    requires Tables(s.db) && Settling(attempt, settlement) in s.work && Settleable(s.db, attempt)
    ensures Leads(t, s, settled)
    ensures attempt in settled.db.attempts && OutcomeOf(settled.db.attempts[attempt]) == Some(settlement)
    ensures var invoice := s.db.attempts[attempt].invoice;
            && invoice in s.db.invoices && invoice in settled.db.invoices
            && settled.db.invoices[invoice] == SettleTransition(settlement).Move(s.db.invoices[invoice], settled.now)
    ensures settled.explaining == s.explaining
    ensures Pending(settled.db.attempts) == Pending(s.db.attempts) - {attempt}
  {
    hide RowsOk, Agree, KeysOk, EventsOk, StoredFor, CompletedFor;
    var work := Settling(attempt, settlement);
    SettleApplies(s.db, attempt, settlement);
    settled := Next(t, s, SettleAttempt(work));
    LeadsStep(t, s, SettleAttempt(work));
  }

  /** Any pending attempt can still be settled, with the outcome the PSP holds or, if it holds none, as failed;
      its invoice ends up paid or open again accordingly, and no open claim is disturbed. */
  lemma NoInvoiceIsStuck(t: Timing, s: State, attempt: Id) returns (settled: State)
    requires Sound(t) && Reachable(t, s) && Settleable(s.db, attempt)
    ensures Leads(t, s, settled) && Reachable(t, settled)
    ensures attempt in settled.db.attempts
    ensures OutcomeOf(settled.db.attempts[attempt]) == Some(Verdict(s, attempt))
    ensures var invoice := s.db.attempts[attempt].invoice;
            && invoice in s.db.invoices && invoice in settled.db.invoices
            && settled.db.invoices[invoice] ==
                 SettleTransition(Verdict(s, attempt)).Move(s.db.invoices[invoice], settled.now)
    ensures settled.explaining == s.explaining
    ensures Pending(settled.db.attempts) == Pending(s.db.attempts) - {attempt}
  {
    ReachableInv(t, s);
    assert AttemptRow(s.db.attempts[attempt]) && ScheduleRow(t, s.db.attempts[attempt], s.now);
    var looked := WaitLeaseAndLook(t, s, attempt);
    LeadsTransitive(t, Initial(), s, looked);
    ReachableInv(t, looked);
    settled := SettleWork(t, looked, attempt, Verdict(s, attempt));
    LeadsTransitive(t, s, looked, settled);
    LeadsTransitive(t, Initial(), s, settled);
  }

  /** So all of them can: every reachable state leads to one without a pending attempt or a processing invoice. */
  lemma {:induction false} EveryInvoiceCanSettle(t: Timing, s: State) returns (settled: State)
    requires Sound(t) && Reachable(t, s)
    ensures Leads(t, s, settled) && Pending(settled.db.attempts) == {}
    ensures forall i :: i in settled.db.invoices ==> settled.db.invoices[i].status != InvoiceStatus.Processing
    decreases |Pending(s.db.attempts)|
  {
    if a :| a in Pending(s.db.attempts) {
      var next := NoInvoiceIsStuck(t, s, a);
      settled := EveryInvoiceCanSettle(t, next);
      LeadsTransitive(t, s, next, settled);
    } else {
      settled := s;
      LeadsReflexive(t, s);
      ReachableInv(t, s);
      ProcessingMeansPending(s.db.invoices, s.db.attempts);
    }
  }

  lemma ProcessingMeansPending(invoices: map<Id, Invoice>, attempts: map<Id, Attempt>)
    requires InvoicesBacked(invoices, attempts)
    ensures forall i :: i in invoices && invoices[i].status == InvoiceStatus.Processing ==> Pending(attempts) != {}
  {
    forall i | i in invoices && invoices[i].status == InvoiceStatus.Processing ensures Pending(attempts) != {} {
      assert HasAttempt(attempts, i, AttemptStatus.Pending);
      var a :| a in attempts && attempts[a].invoice == i && attempts[a].status == AttemptStatus.Pending;
      assert a in Pending(attempts);
    }
  }
}
