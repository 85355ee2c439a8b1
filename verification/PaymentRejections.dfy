/** The 409s stored against idempotency keys: which are permanent, and the one that is not. */
module PaymentRejections {
  import opened Common
  import opened Config
  import opened Schema
  import opened InvoiceState
  import opened Psp
  import opened Transactions
  import opened PaymentProtocol
  import opened PaymentInvariant
  import opened PaymentPreservation
  import opened PaymentTheorems
  import opened PaymentLiveness
  import opened PaymentSafetyWindow
  import opened PaymentEffects

  lemma FirstUse(db: Db, key: KeyId, fingerprint: Fingerprint, attempt: Id, started: Time, firstLook: Time)
    requires key !in db.keys
    ensures var (db', result) := Claim(db, key, fingerprint, attempt, started, firstLook);
            && (result.Refused? ==> db' == db && result.reply == BeginPayment.Rejection(InvoiceStatus.Processing))
            && (result.Rejected? ==>
                  && db' == db.(keys := db.keys[key := KeyRow(fingerprint, None, Some(result.reply))])
                  && (result.reply == NotFound()
                      || (fingerprint.invoice in db.invoices && Terminal(db.invoices[fingerprint.invoice].status)
                          && db.invoices[fingerprint.invoice].business == key.business
                          && result.reply == BeginPayment.Rejection(db.invoices[fingerprint.invoice].status))))
            && !result.Replay? && !result.AwaitingSettlement?
  {
  }

  lemma TerminalRejectsAlways(db: Db, db': Db, key: KeyId, other: KeyId, fingerprint: Fingerprint,
                              attempt: Id, started: Time, firstLook: Time)
    requires DbEvolves(db, db') && other.business == key.business && other !in db'.keys
    requires var found := Find(db, key.business, fingerprint.invoice); found.Some? && Terminal(found.value.status)
    ensures Claim(db', other, fingerprint, attempt, started, firstLook).1 ==
            Rejected(BeginPayment.Rejection(db.invoices[fingerprint.invoice].status))
  {
  }

  /** With the compare-and-set and its explaining read taken as one step: the claim is refused exactly when its invoice
      is processing, with a 409 and the tables, and so the key, as they were; it is told 404 exactly when the caller has
      no such invoice; and a 409 is stored exactly when the invoice is paid or void, which it names. The same request
      with any fresh key then gets the same reply in every later state. */
  lemma AtomicRejectionsArePermanent(t: Timing, s: State, key: KeyId, fingerprint: Fingerprint, attempt: Id, started: Time)
    requires Sound(t) && Reachable(t, s) && key !in s.db.keys
    ensures var (db, result) := Claim(s.db, key, fingerprint, attempt, started, t.config.FirstLook());
            var i := fingerprint.invoice;
            var own := i in s.db.invoices && s.db.invoices[i].business == key.business;
            && (result.Refused? <==> own && s.db.invoices[i].status == InvoiceStatus.Processing)
            && (result.Refused? ==>
                  && db == s.db
                  && result.reply == Reply(409, Some("payment_in_progress"), CurrentStatus(InvoiceStatus.Processing)))
            && (result.Claimed? <==> own && s.db.invoices[i].status == InvoiceStatus.Open)
            && (result == Rejected(Reply(404, Some("resource_not_found"), NoDetails)) <==> !own)
            && (result.Rejected? ==>
                  db == s.db.(keys := s.db.keys[key := KeyRow(fingerprint, None, Some(result.reply))]))
            && (result.Rejected? && own ==>
                  && (result.reply == Reply(409, Some("invoice_already_paid"), CurrentStatus(InvoiceStatus.Paid))
                      || result.reply == Reply(409, Some("invalid_state_transition"), CurrentStatus(InvoiceStatus.Void)))
                  && forall s', other: KeyId, attempt', started' ::
                       Leads(t, s, s') && other.business == key.business && other !in s'.db.keys ==>
                       Claim(s'.db, other, fingerprint, attempt', started', t.config.FirstLook()).1 == result)
  {
    FirstUse(s.db, key, fingerprint, attempt, started, t.config.FirstLook());
    var result := Claim(s.db, key, fingerprint, attempt, started, t.config.FirstLook()).1;
    var i := fingerprint.invoice;
    if result.Rejected? && i in s.db.invoices && s.db.invoices[i].business == key.business {
      forall s', other: KeyId, attempt', started' |
          Leads(t, s, s') && other.business == key.business && other !in s'.db.keys
        ensures Claim(s'.db, other, fingerprint, attempt', started', t.config.FirstLook()).1 == result
      {
        ReachableEvolves(t, s, s');
        TerminalRejectsAlways(s.db, s'.db, key, other, fingerprint, attempt', started', t.config.FirstLook());
      }
    }
  }

  /** Statement by statement, a stored rejection still never names Processing: either the invoice was not found,
      or the status it names was read when it was not Processing. */
  lemma StoredRejectionsNeverNameProcessing(t: Timing, s: State, key: KeyId)
    requires Sound(t) && Reachable(t, s) && key in s.db.keys && s.db.keys[key].attempt.None?
    ensures s.db.keys[key].response.Some?
    ensures var reply := s.db.keys[key].response.value;
            reply == Reply(404, Some("resource_not_found"), NoDetails) || (reply.status == 409 && reply.details.CurrentStatus?
                                    && reply.details.status != InvoiceStatus.Processing)
  {
    ReachableInv(t, s);
    assert KeyRowOk(key.business, s.db.keys[key], s.db.attempts);
  }

  /** The invoice can return to open: it is processing, and its pending attempt has not been charged for. */
  ghost predicate MayReopen(s: State, invoice: Id) {
    exists a :: Settleable(s.db, a) && s.db.attempts[a].invoice == invoice && Verdict(s, a).Failed?
  }

  /** Whether the explaining read can find an open invoice. */
  ghost predicate CanFindOpen(t: Timing, s: State, invoice: Id) {
    exists s' :: Leads(t, s, s') && invoice in s'.db.invoices && s'.db.invoices[invoice].status == InvoiceStatus.Open
  }

  ghost predicate Committed(s: State, invoice: Id) {
    && invoice in s.db.invoices
    && (Terminal(s.db.invoices[invoice].status)
        || exists a :: TookMoney(s, a, invoice))
  }

  lemma ReopensIfItMay(t: Timing, s: State, invoice: Id)
    requires Sound(t) && Reachable(t, s) && MayReopen(s, invoice)
    ensures CanFindOpen(t, s, invoice)
  {
    var a :| Settleable(s.db, a) && s.db.attempts[a].invoice == invoice && Verdict(s, a).Failed?;
    var settled := NoInvoiceIsStuck(t, s, a);
  }

  lemma ChargedIsNotOpen(t: Timing, s: State, a: Id, invoice: Id)
    requires Inv(t, s) && TookMoney(s, a, invoice)
    ensures invoice in s.db.invoices && s.db.invoices[invoice].status != InvoiceStatus.Open
  {
    hide RowsOk, AttemptsFit, InvoicesBacked, NoClash, OutcomesOk, NetworkOk, WorkOk, ScheduleOk, KeysOk, EventsOk, MoneyOk;
    ChargedStatus(t, s, a);
  }

  /** Once terminal, or once money was taken for it, an invoice is never open again. */
  lemma CommittedForGood(t: Timing, s: State, invoice: Id, s': State)
    requires Sound(t) && Reachable(t, s) && Leads(t, s, s') && Committed(s, invoice)
    ensures invoice in s'.db.invoices && s'.db.invoices[invoice].status != InvoiceStatus.Open
  {
    hide Inv;
    ReachableInv(t, s);
    LeadsEvolves(t, s, s');
    if !Terminal(s.db.invoices[invoice].status) {
      var a :| TookMoney(s, a, invoice);
      ChargedIsNotOpen(t, s', a, invoice);
    }
  }

  /** At most one attempt on an invoice is pending or charged for. */
  lemma OneLiveAttempt(t: Timing, s: State, a: Id, b: Id)
    requires Inv(t, s) && Settleable(s.db, a) && b in s.db.attempts
    requires s.db.attempts[b].invoice == s.db.attempts[a].invoice
    requires TookMoney(s, b, s.db.attempts[b].invoice) || Settleable(s.db, b)
    ensures a == b
  {
    hide RowsOk, AttemptsFit, InvoicesBacked, OutcomesOk, NetworkOk, WorkOk, ScheduleOk, KeysOk, EventsOk, MoneyOk;
    if !Settleable(s.db, b) {
      ChargedStatus(t, s, b);
      PendingStatus(s.db, a);
    }
    assert Clash(s.db.attempts[a], s.db.attempts[b]);
  }

  lemma PendingStatus(db: Db, a: Id)
    requires RowsOk(db.invoices, db.attempts) && AttemptsFit(db.invoices, db.attempts) && Settleable(db, a)
    ensures db.attempts[a].invoice in db.invoices
    ensures db.invoices[db.attempts[a].invoice].status == InvoiceStatus.Processing
  {
  }

  lemma CommittedUnlessItMayReopen(t: Timing, s: State, invoice: Id)
    requires Inv(t, s) && invoice in s.db.invoices && s.db.invoices[invoice].status != InvoiceStatus.Open
    ensures Committed(s, invoice) <==> !MayReopen(s, invoice)
  {
    hide RowsOk, AttemptsFit, NoClash, OutcomesOk, NetworkOk, ChargesOk, WorkOk, ScheduleOk, KeysOk, EventsOk, MoneyOk;
    if a :| Settleable(s.db, a) && s.db.attempts[a].invoice == invoice {
      PendingStatus(s.db, a);
    }
    if s.db.invoices[invoice].status == InvoiceStatus.Processing {
      assert HasAttempt(s.db.attempts, invoice, AttemptStatus.Pending);
      var a :| a in s.db.attempts && s.db.attempts[a].invoice == invoice
               && s.db.attempts[a].status == AttemptStatus.Pending;
      if Verdict(s, a).Succeeded? {
        assert TookMoney(s, a, invoice);
      }
      forall b | TookMoney(s, b, invoice) || (Settleable(s.db, b) && s.db.attempts[b].invoice == invoice)
        ensures b == a
      {
        OneLiveAttempt(t, s, a, b);
      }
    }
  }

  /** The compare-and-set has just failed on an invoice that exists. The reply stored after the explaining read is
      sure to name a terminal status if and only if the invoice was terminal already, or its pending attempt had
      been charged; otherwise a decline can land between the two statements, and a 409 saying "open" is stored. */
  lemma RejectionIsPermanentIff(t: Timing, s: State, invoice: Id)
    requires Sound(t) && Reachable(t, s)
    requires invoice in s.db.invoices && s.db.invoices[invoice].status != InvoiceStatus.Open
    ensures !CanFindOpen(t, s, invoice) <==> Committed(s, invoice)
  {
    ReachableInv(t, s);
    CommittedUnlessItMayReopen(t, s, invoice);
    if Committed(s, invoice) {
      forall s' | Leads(t, s, s')
        ensures !(invoice in s'.db.invoices && s'.db.invoices[invoice].status == InvoiceStatus.Open)
      {
        CommittedForGood(t, s, invoice, s');
      }
    } else {
      ReopensIfItMay(t, s, invoice);
    }
  }

  /** And that 409 outlives its reason: from a claim waiting to explain itself on an invoice that may reopen, a run
      leads to an open, payable invoice whose stored 409 this key will be answered with for ever. */
  lemma StoredOpenRejection(t: Timing, s: State, key: KeyId) returns (stored: State)
    requires Sound(t) && Reachable(t, s) && key in s.explaining && MayReopen(s, s.explaining[key].invoice)
    requires s.explaining[key].invoice in s.db.invoices
             && s.db.invoices[s.explaining[key].invoice].business == key.business
    ensures Leads(t, s, stored) && HoldsOpen(stored, key, s.explaining[key])
    ensures var fingerprint := s.explaining[key];
            && CasMatches(stored.db, key.business, fingerprint.invoice, BeginPayment)
            && forall later, attempt, started :: Leads(t, stored, later) ==>
                 Claim(later.db, key, fingerprint, attempt, started, t.config.FirstLook()).1
                   == Replay(BeginPayment.Rejection(InvoiceStatus.Open))
  {
    var fingerprint := s.explaining[key];
    var a :| Settleable(s.db, a) && s.db.attempts[a].invoice == fingerprint.invoice && Verdict(s, a).Failed?;
    var settled := NoInvoiceIsStuck(t, s, a);
    stored := Next(t, settled, Explain(key));
    LeadsStep(t, settled, Explain(key));
    LeadsTransitive(t, s, settled, stored);
    LeadsTransitive(t, Initial(), s, stored);
    var row := KeyRow(fingerprint, None, Some(BeginPayment.Rejection(InvoiceStatus.Open)));
    assert key in stored.db.keys && stored.db.keys[key] == row;
    forall later, attempt, started | Leads(t, stored, later)
      ensures Claim(later.db, key, fingerprint, attempt, started, t.config.FirstLook()).1
                == Replay(BeginPayment.Rejection(InvoiceStatus.Open))
    {
      ReachableEvolves(t, stored, later);
    }
  }

  /** That state is reached: a second request claims while the first is in flight, and explains itself once the first
      attempt has failed. Every configuration has such a run. */
  lemma OpenRejectionHappens(t: Timing) returns (stored: State)
    requires Sound(t)
    ensures Reachable(t, stored) && HoldsOpen(stored, OTHER_KEY, PAYMENT)
    ensures CasMatches(stored.db, OTHER_KEY.business, PAYMENT.invoice, BeginPayment)
  {
    var claimed := Claims(t);
    var second := ClaimInvoice(OTHER_KEY, PAYMENT, 2, 0);
    assert OTHER_KEY != KEY by { assert OTHER_KEY.key[0] != KEY.key[0]; }
    Extend(t, claimed, second);
    var waiting := Next(t, claimed, second);
    assert Settleable(waiting.db, 1) && Verdict(waiting, 1).Failed?;
    assert MayReopen(waiting, PAYMENT.invoice);
    stored := StoredOpenRejection(t, waiting, OTHER_KEY);
    LeadsTransitive(t, Initial(), waiting, stored);
  }

  // ----- What a waiting claim will store

  /** The key holds a 409 that says its invoice is open. */
  predicate HoldsOpen(s: State, key: KeyId, fingerprint: Fingerprint) {
    key in s.db.keys && s.db.keys[key] == KeyRow(fingerprint, None, Some(BeginPayment.Rejection(InvoiceStatus.Open)))
  }

  ghost predicate CanStoreOpen(t: Timing, s: State, key: KeyId, fingerprint: Fingerprint) {
    exists s' :: Leads(t, s, s') && HoldsOpen(s', key, fingerprint)
  }

  predicate ReadsOpen(s: State, key: KeyId, fingerprint: Fingerprint) {
    var found := Find(s.db, key.business, fingerprint.invoice);
    found.Some? && found.value.status == InvoiceStatus.Open
  }

  lemma ExplainsOpen(t: Timing, s: State, key: KeyId)
    requires key in s.explaining && ReadsOpen(s, key, s.explaining[key])
    ensures CanStoreOpen(t, s, key, s.explaining[key])
  {
    LeadsStep(t, s, Explain(key));
    assert HoldsOpen(Next(t, s, Explain(key)), key, s.explaining[key]);
  }

  lemma ExplainStores(t: Timing, s: State, other: KeyId, key: KeyId)
    requires Enabled(t, s, Explain(other)) && key !in s.db.keys && key in Next(t, s, Explain(other)).db.keys
    ensures other == key
    ensures Next(t, s, Explain(key)).db.keys[key]
              == KeyRow(s.explaining[key], None, ReadReply(s.db, key.business, s.explaining[key].invoice))
    ensures ReadReply(s.db, key.business, s.explaining[key].invoice).Some?
  {
    ExplainByStatus(t, s, other);
  }

  /** The claim on this key, on the point of explaining itself, reads what is stored in this row. */
  ghost predicate IsRead(s: State, key: KeyId, row: KeyRow) {
    && key in s.explaining && s.explaining[key] == row.fingerprint
    && row.response.Some?
    && ReadReply(s.db, key.business, row.fingerprint.invoice) == row.response
  }

  /** Only an explaining read stores a rejection, and it stores what it read. */
  lemma StoresWhatItRead(t: Timing, s: State, step: Step, key: KeyId)
    requires Enabled(t, s, step) && key !in s.db.keys && key in Next(t, s, step).db.keys
    requires Next(t, s, step).db.keys[key].attempt.None?
    ensures IsRead(s, key, Next(t, s, step).db.keys[key])
  {
    hide Psp.Record, Psp.Lookup, AfterLook, LeaseAll, DueColumn, DueWork, Backoff, ReadReply, Explained;
    if step.Explain? {
      ExplainStores(t, s, step.key, key);
    }
  }

  lemma {:induction false} RejectionWasRead(t: Timing, s: State, steps: seq<Step>, key: KeyId) returns (read: State)
    requires Sound(t) && Inv(t, s) && Run(t, s, steps).Some?
    requires key !in s.db.keys
    requires var last := Run(t, s, steps).value; key in last.db.keys && last.db.keys[key].attempt.None?
    ensures Leads(t, s, read) && Leads(t, read, Run(t, s, steps).value)
    ensures IsRead(read, key, Run(t, s, steps).value.db.keys[key])
    decreases |steps|
  {
    var next := Next(t, s, steps[0]);
    StepKeepsInv(t, s, steps[0]);
    LeadsStep(t, s, steps[0]);
    if key in next.db.keys {
      RunEvolves(t, next, steps[1..]);
      KeyAnswersNow(next, key);
      StoresWhatItRead(t, s, steps[0], key);
      LeadsReflexive(t, s);
      read := s;
      assert Run(t, s, steps) == Some(Run(t, s, steps).value);
    } else {
      read := RejectionWasRead(t, next, steps[1..], key);
      LeadsTransitive(t, s, next, read);
    }
  }

  /** Every rejection a key holds was true when it was read: a 404 means that the caller had no such invoice then, a 409
      that its invoice had the status named. Nothing is ever stored for an invoice that was processing. */
  lemma StoredRejectionWasTrue(t: Timing, s: State, key: KeyId) returns (read: State)
    requires Sound(t) && Reachable(t, s) && key in s.db.keys && s.db.keys[key].attempt.None?
    ensures Reachable(t, read) && Leads(t, read, s) && s.db.keys[key].response.Some?
    ensures var (row, i) := (s.db.keys[key], s.db.keys[key].fingerprint.invoice);
            if i !in read.db.invoices || read.db.invoices[i].business != key.business then
              row.response.value == Reply(404, Some("resource_not_found"), NoDetails)
            else
              && row.response.value.status == 409
              && row.response.value.details == CurrentStatus(read.db.invoices[i].status)
              && read.db.invoices[i].status != InvoiceStatus.Processing
  {
    hide Inv, IsRead, Next, Enabled;
    var steps :| Run(t, Initial(), steps) == Some(s);
    InitialInv(t);
    read := RejectionWasRead(t, Initial(), steps, key);
    ReadIsTrue(read, key, s.db.keys[key]);
  }

  lemma ReadIsTrue(read: State, key: KeyId, row: KeyRow)
    requires IsRead(read, key, row)
    ensures var i := row.fingerprint.invoice;
            if i !in read.db.invoices || read.db.invoices[i].business != key.business then
              row.response.value == Reply(404, Some("resource_not_found"), NoDetails)
            else
              && row.response.value.status == 409
              && row.response.value.details == CurrentStatus(read.db.invoices[i].status)
              && read.db.invoices[i].status != InvoiceStatus.Processing
    ensures row.response == Some(BeginPayment.Rejection(InvoiceStatus.Open)) ==> ReadsOpen(read, key, row.fingerprint)
  {
  }

  lemma KeysApart(t: Timing, s: State, key: KeyId)
    requires Inv(t, s) && key in s.explaining
    ensures key !in s.db.keys
  {
  }

  lemma KeyAnswersNow(s: State, key: KeyId)
    requires KeysOk(s.db.attempts, s.db.keys) && key in s.db.keys && s.db.keys[key].attempt.None?
    ensures s.db.keys[key].response.Some?
  {
    assert KeyRowOk(key.business, s.db.keys[key], s.db.attempts);
  }

  /** A claim is waiting to explain itself. Some run lets its key store a 409 that says "open" if and only if, as things
      stand, the invoice is missing and might yet be created, or it is the caller's and is neither terminal nor
      charged. */
  lemma StoresOpenIff(t: Timing, s: State, key: KeyId)
    requires Sound(t) && Reachable(t, s) && key in s.explaining
    ensures var invoice := s.explaining[key].invoice;
            CanStoreOpen(t, s, key, s.explaining[key]) <==>
              invoice in s.db.invoices ==> s.db.invoices[invoice].business == key.business && !Committed(s, invoice)
  {
    hide Inv, IsRead, Next, Enabled, Committed;
    var fingerprint := s.explaining[key];
    var invoice := fingerprint.invoice;
    ReachableInv(t, s);
    if invoice !in s.db.invoices {
      CreatedThenExplained(t, s, key);
    } else if s.db.invoices[invoice].business == key.business && !Committed(s, invoice) {
      ReopenedThenExplained(t, s, key);
    } else if CanStoreOpen(t, s, key, fingerprint) {
      var stored :| Leads(t, s, stored) && HoldsOpen(stored, key, fingerprint);
      var steps :| Run(t, s, steps) == Some(stored);
      KeysApart(t, s, key);
      var read := RejectionWasRead(t, s, steps, key);
      ReadIsTrue(read, key, stored.db.keys[key]);
      LeadsEvolves(t, s, read);
      CommittedForGood(t, s, invoice, read);
      assert false;
    }
  }

  lemma CreatedThenExplained(t: Timing, s: State, key: KeyId)
    requires key in s.explaining && s.explaining[key].invoice !in s.db.invoices
    ensures CanStoreOpen(t, s, key, s.explaining[key])
  {
    var create := CreateInvoice(s.explaining[key].invoice, key.business, 1);
    var created := Next(t, s, create);
    LeadsStep(t, s, create);
    ExplainsOpen(t, created, key);
    var stored :| Leads(t, created, stored) && HoldsOpen(stored, key, s.explaining[key]);
    LeadsTransitive(t, s, created, stored);
  }

  lemma ReopenedThenExplained(t: Timing, s: State, key: KeyId)
    requires Sound(t) && Reachable(t, s) && key in s.explaining
    requires var invoice := s.explaining[key].invoice;
             invoice in s.db.invoices && s.db.invoices[invoice].business == key.business && !Committed(s, invoice)
    ensures CanStoreOpen(t, s, key, s.explaining[key])
  {
    var invoice := s.explaining[key].invoice;
    if s.db.invoices[invoice].status == InvoiceStatus.Open {
      ExplainsOpen(t, s, key);
    } else {
      ReachableInv(t, s);
      CommittedUnlessItMayReopen(t, s, invoice);
      var stored := StoredOpenRejection(t, s, key);
    }
  }
}
