/** Payments and the event feed as one system: what a consumer that pages through `seq` learns about an invoice.

    A transaction that changes an invoice locks its business row, draws a number and inserts one row; when it commits,
    its changes to the payment tables and its row in the feed appear together. Everything else interleaves. */
module OutboxFeed {
  import opened Common
  import opened Schema
  import opened History
  import PaymentProtocol
  import PaymentInvariant
  import PaymentPreservation
  import EventFeed

  /** A committed feed row and the event in it. */
  datatype Entry = Entry(row: EventFeed.Row, event: Event)

  /** `log` lists what was published, in commit order. */
  datatype State = State(payments: PaymentProtocol.State, feed: EventFeed.Feed, log: seq<Entry>)

  datatype Step =
    | Pay(step: PaymentProtocol.Step)
    | Feed(move: EventFeed.Step)
    | Publish(step: PaymentProtocol.Step, tx: Id, row: EventFeed.Row)

  function Initial(business: Id): State {
    State(PaymentProtocol.Initial(), EventFeed.Initial(business), [])
  }

  /** The step records one event, of this row's business. */
  ghost predicate Records(t: PaymentProtocol.Timing, s: PaymentProtocol.State, step: PaymentProtocol.Step, row: EventFeed.Row)
    requires PaymentProtocol.Enabled(t, s, step)
  {
    var events := PaymentProtocol.Next(t, s, step).db.events;
    && |events| == |s.db.events| + 1
    && events[..|s.db.events|] == s.db.events
    && events[|s.db.events|].business == row.business
  }

  ghost predicate Enabled(t: PaymentProtocol.Timing, s: State, step: Step) {
    match step
    case Pay(step) =>
      && PaymentProtocol.Enabled(t, s.payments, step)
      && PaymentProtocol.Next(t, s.payments, step).db.events == s.payments.db.events
    case Feed(move) =>
      && EventFeed.Enabled(true, s.feed, move)
      && (move.Commit? ==> s.feed.open[move.tx].rows == {})
    case Publish(step, tx, row) =>
      && PaymentProtocol.Enabled(t, s.payments, step)
      && Records(t, s.payments, step, row)
      && EventFeed.Enabled(true, s.feed, EventFeed.Commit(tx))
      && s.feed.open[tx].rows == {row}
  }

  ghost function Next(t: PaymentProtocol.Timing, s: State, step: Step): State
    requires Enabled(t, s, step)
  {
    match step
    case Pay(step) => s.(payments := PaymentProtocol.Next(t, s.payments, step))
    case Feed(move) => s.(feed := EventFeed.Next(true, s.feed, move))
    case Publish(step, tx, row) =>
      var payments := PaymentProtocol.Next(t, s.payments, step);
      State(payments,
            EventFeed.Next(true, s.feed, EventFeed.Commit(tx)),
            s.log + [Entry(row, payments.db.events[|s.payments.db.events|])])
  }

  ghost function Run(t: PaymentProtocol.Timing, s: State, steps: seq<Step>): Option<State>
    decreases |steps|
  {
    if steps == [] then Some(s)
    else if Enabled(t, s, steps[0]) then Run(t, Next(t, s, steps[0]), steps[1..])
    else None
  }

  // ----- The invariant

  function Events(log: seq<Entry>): seq<Event> {
    seq(|log|, j requires 0 <= j < |log| => log[j].event)
  }

  ghost function Rows(log: seq<Entry>): set<EventFeed.Row> {
    set e | e in log :: e.row
  }

  /** Within a business, commit order is `seq` order. */
  ghost predicate LogOk(log: seq<Entry>) {
    && (forall j :: 0 <= j < |log| ==> log[j].row.business == log[j].event.business)
    && (forall j, k :: 0 <= j < k < |log| && log[j].row.business == log[k].row.business ==>
          log[j].row.number < log[k].row.number)
  }

  ghost predicate Inv(t: PaymentProtocol.Timing, s: State) {
    && PaymentInvariant.Inv(t, s.payments)
    && EventFeed.Inv(s.feed)
    && Events(s.log) == s.payments.db.events
    && Rows(s.log) == s.feed.committed
    && LogOk(s.log)
  }

  lemma CommittedUnchanged(s: EventFeed.Feed, move: EventFeed.Step)
    requires EventFeed.Enabled(true, s, move) && (move.Commit? ==> s.open[move.tx].rows == {})
    ensures EventFeed.Next(true, s, move).committed == s.committed
  {
  }

  lemma RowsAppend(log: seq<Entry>, entry: Entry)
    ensures Rows(log + [entry]) == Rows(log) + {entry.row}
    ensures Events(log + [entry]) == Events(log) + [entry.event]
  {
    forall e | e in log ensures e in log + [entry] {}
    assert entry in log + [entry];
  }

  /** The committing transaction holds the lock, so its number is above all that its business has committed. */
  lemma PublishKeepsLog(s: State, tx: Id, row: EventFeed.Row, event: Event)
    requires LogOk(s.log) && Rows(s.log) == s.feed.committed && EventFeed.Inv(s.feed)
    requires tx in s.feed.open && s.feed.open[tx].rows == {row} && event.business == row.business
    ensures LogOk(s.log + [Entry(row, event)])
  {
    var open := s.feed.open[tx];
    assert EventFeed.Later(s.feed.committed, open) && row in open.rows && row.business == open.business;
    forall j | 0 <= j < |s.log| && s.log[j].row.business == row.business ensures s.log[j].row.number < row.number {
      assert s.log[j] in s.log && s.log[j].row in Rows(s.log);
    }
  }

  lemma StepKeepsInv(t: PaymentProtocol.Timing, s: State, step: Step)
    requires PaymentInvariant.Sound(t) && Inv(t, s) && Enabled(t, s, step)
    ensures Inv(t, Next(t, s, step))
  {
    hide PaymentInvariant.Inv, EventFeed.Inv, LogOk, PaymentProtocol.Next, PaymentProtocol.Enabled;
    if step.Feed? {
      EventFeed.StepKeepsInv(s.feed, step.move);
      CommittedUnchanged(s.feed, step.move);
    } else if step.Pay? {
      PaymentPreservation.StepKeepsInv(t, s.payments, step.step);
    } else {
      var events := PaymentProtocol.Next(t, s.payments, step.step).db.events;
      var event := events[|s.payments.db.events|];
      PaymentPreservation.StepKeepsInv(t, s.payments, step.step);
      EventFeed.StepKeepsInv(s.feed, EventFeed.Commit(step.tx));
      PublishKeepsLog(s, step.tx, step.row, event);
      RowsAppend(s.log, Entry(step.row, event));
      assert events == s.payments.db.events + [event];
    }
  }

  lemma {:induction false} RunKeepsInv(t: PaymentProtocol.Timing, s: State, steps: seq<Step>)
    requires PaymentInvariant.Sound(t) && Inv(t, s) && Run(t, s, steps).Some?
    ensures Inv(t, Run(t, s, steps).value)
    decreases |steps|
  {
    if steps != [] {
      StepKeepsInv(t, s, steps[0]);
      RunKeepsInv(t, Next(t, s, steps[0]), steps[1..]);
    }
  }

  lemma InitialInv(t: PaymentProtocol.Timing, business: Id)
    ensures Inv(t, Initial(business))
  {
    PaymentPreservation.InitialInv(t);
  }

  // ----- What the reader holds is a prefix of what was published

  /** One business's rows, in commit order. */
  function OwnRows(log: seq<Entry>, business: Id): seq<EventFeed.Row> {
    if log == [] then []
    else
      var last := log[|log| - 1];
      OwnRows(log[..|log| - 1], business) + if last.row.business == business then [last.row] else []
  }

  ghost predicate Ascends(rows: seq<EventFeed.Row>) {
    forall j, k :: 0 <= j < k < |rows| ==> rows[j].number < rows[k].number
  }

  function Front<T>(rows: seq<T>): seq<T>
    requires rows != []
  {
    rows[..|rows| - 1]
  }

  function Last<T>(rows: seq<T>): T
    requires rows != []
  {
    rows[|rows| - 1]
  }

  /** The last entry has the highest number of its business. */
  lemma LastIsHighest(log: seq<Entry>, row: EventFeed.Row)
    requires LogOk(log) && row in Rows(log)
    ensures log != [] && LogOk(Front(log))
    ensures Last(log).row.business == row.business ==> row.number <= Last(log).row.number
    ensures row in Rows(Front(log)) && Last(log).row.business == row.business ==> row.number < Last(log).row.number
  {
    var e :| e in log && e.row == row;
    var j :| 0 <= j < |log| && log[j] == e;
    if row in Rows(Front(log)) {
      var f :| f in Front(log) && f.row == row;
      var k :| 0 <= k < |Front(log)| && Front(log)[k] == f;
      assert log[k] == f;
    }
  }

  lemma {:induction false} OwnRowsAre(log: seq<Entry>, business: Id)
    ensures forall r :: r in OwnRows(log, business) <==> r in Rows(log) && r.business == business
  {
    if log != [] {
      OwnRowsAre(Front(log), business);
      assert log == Front(log) + [Last(log)];
      RowsAppend(Front(log), Last(log));
    }
  }

  lemma FrontOk(log: seq<Entry>)
    requires LogOk(log) && log != []
    ensures LogOk(Front(log))
  {
  }

  lemma OwnRowsBelow(log: seq<Entry>)
    requires LogOk(log) && log != []
    ensures forall r :: r in OwnRows(Front(log), Last(log).row.business) ==> r.number < Last(log).row.number
  {
    OwnRowsAre(Front(log), Last(log).row.business);
    assert log == Front(log) + [Last(log)];
    RowsAppend(Front(log), Last(log));
    hide LogOk, Rows, OwnRows;
    forall r | r in OwnRows(Front(log), Last(log).row.business) ensures r.number < Last(log).row.number {
      LastIsHighest(log, r);
    }
  }

  lemma {:induction false} OwnRowsAscend(log: seq<Entry>, business: Id)
    requires LogOk(log)
    ensures Ascends(OwnRows(log, business))
  {
    hide LogOk, Rows;
    if log != [] {
      FrontOk(log);
      OwnRowsAscend(Front(log), business);
      if Last(log).row.business == business {
        OwnRowsBelow(log);
        AscendsAppend(OwnRows(Front(log), business), Last(log).row);
      }
    }
  }

  lemma AscendsAppend(rows: seq<EventFeed.Row>, row: EventFeed.Row)
    requires Ascends(rows) && forall r :: r in rows ==> r.number < row.number
    ensures Ascends(rows + [row])
  {
    assert forall j :: 0 <= j < |rows| ==> rows[j] in rows;
  }

  lemma FrontIsRest(rows: seq<EventFeed.Row>)
    requires Ascends(rows) && rows != []
    ensures Ascends(Front(rows)) && rows == Front(rows) + [Last(rows)]
    ensures forall r :: r in Front(rows) <==> r in rows && r != Last(rows)
    ensures forall r :: r in Front(rows) ==> r.number < Last(rows).number
  {
    forall r | r in rows ensures r in Front(rows) <==> r != Last(rows) {
      var j :| 0 <= j < |rows| && rows[j] == r;
      assert j < |rows| - 1 ==> Front(rows)[j] == r;
    }
  }

  lemma FirstIsIn(rows: seq<EventFeed.Row>)
    requires rows != []
    ensures rows[0] in rows
  {
  }

  lemma NoneMeansEmpty(rows: seq<EventFeed.Row>)
    requires forall r :: r !in rows
    ensures rows == []
  {
    if rows != [] {
      FirstIsIn(rows);
    }
  }

  lemma LastIsHighestIn(rows: seq<EventFeed.Row>, row: EventFeed.Row)
    requires Ascends(rows) && row in rows
    ensures row.number <= Last(rows).number && (row.number == Last(rows).number ==> row == Last(rows))
  {
    FrontIsRest(rows);
  }

  lemma LastsAgree(rows: seq<EventFeed.Row>, others: seq<EventFeed.Row>)
    requires Ascends(rows) && Ascends(others) && forall r :: r in rows <==> r in others
    requires rows != [] && others != []
    ensures Last(rows) == Last(others)
  {
    assert Last(rows) in rows && Last(others) in others;
    LastIsHighestIn(rows, Last(others));
    LastIsHighestIn(others, Last(rows));
  }

  lemma {:induction false} SameAscending(rows: seq<EventFeed.Row>, others: seq<EventFeed.Row>)
    requires Ascends(rows) && Ascends(others) && forall r :: r in rows <==> r in others
    ensures rows == others
    decreases |rows|
  {
    if rows == [] {
      NoneMeansEmpty(others);
    } else {
      assert Last(rows) in rows && Last(rows) in others;
      LastsAgree(rows, others);
      FrontIsRest(rows);
      FrontIsRest(others);
      SameAscending(Front(rows), Front(others));
    }
  }

  lemma AllConsumed(log: seq<Entry>, business: Id, consumed: seq<EventFeed.Row>)
    requires LogOk(log) && EventFeed.Exact(Rows(log), business, consumed)
    requires forall r :: r in Rows(log) && r.business == business ==> r in consumed
    ensures consumed == OwnRows(log, business)
  {
    OwnRowsAscend(log, business);
    OwnRowsAre(log, business);
    SameAscending(consumed, OwnRows(log, business));
  }

  /** The reader holds exactly the business's rows among the first m published. */
  lemma {:induction false} ConsumedIsPrefix(log: seq<Entry>, business: Id, consumed: seq<EventFeed.Row>) returns (m: nat)
    requires LogOk(log) && EventFeed.Exact(Rows(log), business, consumed)
    ensures m <= |log| && consumed == OwnRows(log[..m], business)
    decreases |log|
  {
    hide LogOk, EventFeed.Exact, Rows, OwnRows;
    if forall r :: r in Rows(log) && r.business == business ==> r in consumed {
      AllConsumed(log, business, consumed);
      m := |log|;
      assert log[..m] == log;
    } else {
      LastIsUnread(log, business, consumed);
      m := ConsumedIsPrefix(Front(log), business, consumed);
      assert log[..m] == Front(log)[..m];
    }
  }

  /** If the business's last row had been consumed, all of them would have been. */
  lemma LastIsUnread(log: seq<Entry>, business: Id, consumed: seq<EventFeed.Row>)
    requires LogOk(log) && EventFeed.Exact(Rows(log), business, consumed)
    requires exists r :: r in Rows(log) && r.business == business && r !in consumed
    ensures log != [] && LogOk(Front(log)) && EventFeed.Exact(Rows(Front(log)), business, consumed)
  {
    var r :| r in Rows(log) && r.business == business && r !in consumed;
    LastIsHighest(log, r);
    assert log == Front(log) + [Last(log)];
    RowsAppend(Front(log), Last(log));
    hide Rows, LogOk;
    ReadThrough(Rows(log), business, consumed, r, Last(log).row);
    ExactWithout(Rows(Front(log)), Last(log).row, business, consumed);
  }

  /** Whatever comes no earlier than an unread row is unread. */
  lemma ReadThrough(rows: set<EventFeed.Row>, business: Id, consumed: seq<EventFeed.Row>, unread: EventFeed.Row,
                    row: EventFeed.Row)
    requires EventFeed.Exact(rows, business, consumed) && unread in rows && unread.business == business
    requires unread !in consumed && (row.business == business ==> unread.number <= row.number)
    ensures row !in consumed
  {
  }

  lemma ExactWithout(rows: set<EventFeed.Row>, row: EventFeed.Row, business: Id, consumed: seq<EventFeed.Row>)
    requires EventFeed.Exact(rows + {row}, business, consumed) && row !in consumed
    ensures EventFeed.Exact(rows, business, consumed)
  {
  }

  // ----- What the reader sees of an invoice

  ghost function EventOf(log: seq<Entry>, row: EventFeed.Row): Event
    requires row in Rows(log)
  {
    var e :| e in log && e.row == row;
    e.event
  }

  /** The kinds of one invoice's events among these rows, in the order of the rows. */
  ghost function Seen(log: seq<Entry>, rows: seq<EventFeed.Row>, invoice: Id): seq<EventKind>
    requires forall r :: r in rows ==> r in Rows(log)
  {
    if rows == [] then []
    else
      var event := EventOf(log, rows[|rows| - 1]);
      Seen(log, rows[..|rows| - 1], invoice) + if event.invoice == invoice then [event.kind] else []
  }

  lemma EventOfEntry(log: seq<Entry>, j: nat)
    requires LogOk(log) && j < |log|
    ensures log[j].row in Rows(log) && EventOf(log, log[j].row) == log[j].event
    ensures log[j].row.business == log[j].event.business
  {
    assert log[j] in log;
    var e :| e in log && e.row == log[j].row && e.event == EventOf(log, log[j].row);
    var k :| 0 <= k < |log| && log[k] == e;
    assert k == j;
  }

  lemma {:induction false} SeenIsKinds(log: seq<Entry>, m: nat, business: Id, invoice: Id)
    requires LogOk(log) && m <= |log|
    requires forall j :: 0 <= j < |log| && log[j].event.invoice == invoice ==> log[j].event.business == business
    ensures forall r :: r in OwnRows(log[..m], business) ==> r in Rows(log)
    ensures Seen(log, OwnRows(log[..m], business), invoice) == Kinds(Events(log[..m]), invoice)
    decreases m
  {
    hide LogOk, Rows, EventOf, Seen, OwnRows, Kinds, Events;
    if m == 0 {
      NothingSeen(log, business, invoice);
    } else {
      var (front, last) := (log[..m - 1], log[m - 1]);
      SeenIsKinds(log, m - 1, business, invoice);
      EventOfEntry(log, m - 1);
      assert log[..m] == front + [last];
      PublishedAppends(front, last, business, invoice);
      var rows := OwnRows(front, business);
      if last.row.business == business {
        SeenAppends(log, rows, last.row, invoice);
      } else {
        assert rows + [] == rows;
      }
    }
  }

  lemma NothingSeen(log: seq<Entry>, business: Id, invoice: Id)
    ensures OwnRows(log[..0], business) == []
    ensures Seen(log, [], invoice) == [] == Kinds(Events(log[..0]), invoice)
  {
  }

  lemma PublishedAppends(front: seq<Entry>, last: Entry, business: Id, invoice: Id)
    ensures OwnRows(front + [last], business) ==
            OwnRows(front, business) + if last.row.business == business then [last.row] else []
    ensures Kinds(Events(front + [last]), invoice) ==
            Kinds(Events(front), invoice) + if last.event.invoice == invoice then [last.event.kind] else []
  {
    assert (front + [last])[..|front|] == front;
    var events := Events(front + [last]);
    assert events[..|front|] == Events(front);
  }

  lemma SeenAppends(log: seq<Entry>, rows: seq<EventFeed.Row>, row: EventFeed.Row, invoice: Id)
    requires (forall r :: r in rows ==> r in Rows(log)) && row in Rows(log)
    ensures forall r :: r in rows + [row] ==> r in Rows(log)
    ensures Seen(log, rows + [row], invoice) ==
            Seen(log, rows, invoice) + if EventOf(log, row).invoice == invoice then [EventOf(log, row).kind] else []
  {
    assert (rows + [row])[..|rows|] == rows;
  }

  lemma {:induction false} KindsGrow(events: seq<Event>, m: nat, invoice: Id)
    requires m <= |events|
    ensures Kinds(events[..m], invoice) <= Kinds(events, invoice)
    decreases |events|
  {
    if m == |events| {
      assert events[..m] == events;
    } else {
      var front := events[..|events| - 1];
      KindsGrow(front, m, invoice);
      assert events[..m] == front[..m];
    }
  }

  lemma ConsumedIsKnown(s: State)
    requires EventFeed.Inv(s.feed) && Rows(s.log) == s.feed.committed
    ensures forall r :: r in s.feed.reader.consumed ==> r in Rows(s.log)
  {
  }

  ghost predicate CaughtUp(s: State) {
    forall r :: r in s.feed.committed && r.business == s.feed.reader.business ==> r in s.feed.reader.consumed
  }

  /** Whatever payments, transactions and reads interleave: what a reader has consumed, in `seq` order, tells the
      history of each invoice of its business as far as it has read (created, payment_failed*, then at most one of paid
      or voided), and all of it, as the tables have it, once it has caught up. */
  lemma ReaderSeesHistory(t: PaymentProtocol.Timing, business: Id, steps: seq<Step>, invoice: Id)
    requires PaymentInvariant.Sound(t) && Run(t, Initial(business), steps).Some?
    requires var payments := Run(t, Initial(business), steps).value.payments;
             invoice in payments.db.invoices
             && payments.db.invoices[invoice].business == Run(t, Initial(business), steps).value.feed.reader.business
    ensures var s := Run(t, Initial(business), steps).value;
            var past := PaymentInvariant.ExpectedPast(s.payments.db.invoices, s.payments.db.attempts, invoice);
            && past != Broken
            && (forall r :: r in s.feed.reader.consumed ==> r in Rows(s.log))
            && Seen(s.log, s.feed.reader.consumed, invoice) <= Shape(past)
            && (CaughtUp(s) ==> Seen(s.log, s.feed.reader.consumed, invoice) == Shape(past))
  {
    InitialInv(t, business);
    RunKeepsInv(t, Initial(business), steps);
    SeesHistory(t, Run(t, Initial(business), steps).value, invoice);
  }

  lemma SeesHistory(t: PaymentProtocol.Timing, s: State, invoice: Id)
    requires Inv(t, s) && invoice in s.payments.db.invoices
    requires s.payments.db.invoices[invoice].business == s.feed.reader.business
    ensures var past := PaymentInvariant.ExpectedPast(s.payments.db.invoices, s.payments.db.attempts, invoice);
            && past != Broken
            && (forall r :: r in s.feed.reader.consumed ==> r in Rows(s.log))
            && Seen(s.log, s.feed.reader.consumed, invoice) <= Shape(past)
            && (CaughtUp(s) ==> Seen(s.log, s.feed.reader.consumed, invoice) == Shape(past))
  {
    TablesHistory(t, s, invoice);
    ReaderIsExact(s);
    ConsumedIsKnown(s);
    LogIsOwned(t, s, invoice);
    hide Inv, EventFeed.Exact, LogOk, Rows;
    SeenSoFar(s.log, s.feed.reader.business, s.feed.reader.consumed, invoice);
  }

  lemma TablesHistory(t: PaymentProtocol.Timing, s: State, invoice: Id)
    requires Inv(t, s)
    ensures var past := PaymentInvariant.ExpectedPast(s.payments.db.invoices, s.payments.db.attempts, invoice);
            past != Broken && Kinds(Events(s.log), invoice) == Shape(past)
  {
    hide PaymentInvariant.Outside, PaymentInvariant.RowsOk, PaymentInvariant.Agree, PaymentInvariant.KeysOk,
         PaymentInvariant.MoneyOk, PaymentInvariant.EventsOwned, EventFeed.Inv, LogOk, Rows;
    FoldGivesShape(s.payments.db.events, invoice);
  }

  lemma ReaderIsExact(s: State)
    requires EventFeed.Inv(s.feed) && Rows(s.log) == s.feed.committed
    ensures EventFeed.Exact(Rows(s.log), s.feed.reader.business, s.feed.reader.consumed)
  {
  }

  lemma LogIsOwned(t: PaymentProtocol.Timing, s: State, invoice: Id)
    requires Inv(t, s) && invoice in s.payments.db.invoices
    ensures forall j :: 0 <= j < |s.log| && s.log[j].event.invoice == invoice ==>
              s.log[j].event.business == s.payments.db.invoices[invoice].business
  {
    hide PaymentInvariant.Outside, PaymentInvariant.RowsOk, PaymentInvariant.Agree, PaymentInvariant.KeysOk,
         PaymentInvariant.MoneyOk, PaymentInvariant.EventsOk, EventFeed.Inv, LogOk, Rows;
    assert forall j :: 0 <= j < |s.log| ==> s.payments.db.events[j] == s.log[j].event;
  }

  lemma SeenSoFar(log: seq<Entry>, business: Id, consumed: seq<EventFeed.Row>, invoice: Id)
    requires LogOk(log) && EventFeed.Exact(Rows(log), business, consumed)
    requires forall j :: 0 <= j < |log| && log[j].event.invoice == invoice ==> log[j].event.business == business
    ensures forall r :: r in consumed ==> r in Rows(log)
    ensures Seen(log, consumed, invoice) <= Kinds(Events(log), invoice)
    ensures (forall r :: r in Rows(log) && r.business == business ==> r in consumed) ==>
              Seen(log, consumed, invoice) == Kinds(Events(log), invoice)
  {
    var m := ConsumedIsPrefix(log, business, consumed);
    SeenIsKinds(log, m, business, invoice);
    hide Seen, Kinds, Rows, LogOk, OwnRows;
    assert Events(log[..m]) == Events(log)[..m];
    KindsGrow(Events(log), m, invoice);
    if forall r :: r in Rows(log) && r.business == business ==> r in consumed {
      AllConsumed(log, business, consumed);
      SeenIsKinds(log, |log|, business, invoice);
      assert log[..|log|] == log;
    }
  }
}
