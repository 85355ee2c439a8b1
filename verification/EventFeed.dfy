/** The event feed: `seq` drawn under the business row lock, and a reader that follows `after=<last id>`.

    Transactions lock, draw a number, insert, and commit or abort in separate steps; a number that is drawn is never
    drawn again, so aborts leave gaps. Rows are visible once committed. */
module EventFeed {
  import opened Common
  import opened Sql
  import opened Pagination

  datatype Row = Row(id: Id, business: Id, number: nat)

  /** An open transaction: the business whose row it holds locked, a number drawn and not yet used, its own rows. */
  datatype Tx = Tx(business: Id, drawn: Option<nat>, rows: set<Row>)

  /** A consumer of one business's feed. `from` is the cursor's number, read before the page is. */
  datatype Reader = Reader(business: Id, consumed: seq<Row>, from: Option<nat>)

  datatype Feed = Feed(committed: set<Row>, open: map<Id, Tx>, next: nat, reader: Reader)

  datatype Step =
    | Lock(tx: Id, business: Id)
    | Draw(tx: Id)
    | Insert(tx: Id, id: Id)
    | Commit(tx: Id)
    | Abort(tx: Id)
    | ReadCursor
    | ReadPage(limit: nat, fetched: seq<Row>)

  /** Numbers start at 1, so that 0 is before every row. */
  function Initial(business: Id): Feed {
    Feed({}, map[], 1, Reader(business, [], None))
  }

  function Known(committed: set<Row>, open: map<Id, Tx>): set<Row> {
    committed + (set tx, r | tx in open && r in open[tx].rows :: r)
  }

  /** WHERE business_id = b AND seq > from ORDER BY seq. */
  function After(rows: set<Row>, business: Id, from: nat): map<Row, int> {
    map r | r in rows && r.business == business && r.number > from :: r.number
  }

  function CursorNumber(consumed: seq<Row>): nat {
    if consumed == [] then 0 else consumed[|consumed| - 1].number
  }

  /** `locking` is whether taking the business row lock waits for whoever holds it. */
  ghost predicate Enabled(locking: bool, s: Feed, step: Step) {
    match step
    case Lock(tx, business) =>
      tx !in s.open && (locking ==> forall other :: other in s.open ==> s.open[other].business != business)
    case Draw(tx) => tx in s.open && s.open[tx].drawn.None?
    case Insert(tx, id) => tx in s.open && s.open[tx].drawn.Some? && forall r :: r in Known(s.committed, s.open) ==> r.id != id
    case Commit(tx) => tx in s.open
    case Abort(tx) => tx in s.open
    case ReadCursor => s.reader.from.None?
    case ReadPage(limit, fetched) =>
      s.reader.from.Some? && IsFirst(After(s.committed, s.reader.business, s.reader.from.value), limit + 1, fetched)
  }

  /** The number the cursor's id is looked up to: ids are unique, and rows are never deleted. */
  ghost function LookUp(s: Feed): nat {
    if s.reader.consumed == [] then 0
    else
      var last := s.reader.consumed[|s.reader.consumed| - 1];
      if exists r :: r in s.committed && r.id == last.id && r.business == s.reader.business then
        var r :| r in s.committed && r.id == last.id && r.business == s.reader.business;
        r.number
      else 0
  }

  ghost function Next(locking: bool, s: Feed, step: Step): Feed
    requires Enabled(locking, s, step)
  {
    match step
    case Lock(tx, business) => s.(open := s.open[tx := Tx(business, None, {})])
    case Draw(tx) => s.(open := s.open[tx := s.open[tx].(drawn := Some(s.next))], next := s.next + 1)
    case Insert(tx, id) =>
      var t := s.open[tx];
      s.(open := s.open[tx := t.(drawn := None, rows := t.rows + {Row(id, t.business, t.drawn.value)})])
    case Commit(tx) => s.(committed := s.committed + s.open[tx].rows, open := s.open - {tx})
    case Abort(tx) => s.(open := s.open - {tx})
    case ReadCursor => s.(reader := s.reader.(from := Some(LookUp(s))))
    case ReadPage(limit, fetched) =>
      s.(reader := s.reader.(consumed := s.reader.consumed + Overfetched(fetched, limit).data, from := None))
  }

  ghost function Run(locking: bool, s: Feed, steps: seq<Step>): Option<Feed>
    decreases |steps|
  {
    if steps == [] then Some(s)
    else if Enabled(locking, s, steps[0]) then Run(locking, Next(locking, s, steps[0]), steps[1..])
    else None
  }

  // ----- The invariant

  ghost predicate Numbered(known: set<Row>, open: map<Id, Tx>, next: nat) {
    && (forall r :: r in known ==> 0 < r.number < next)
    && (forall tx :: tx in open && open[tx].drawn.Some? ==> 0 < open[tx].drawn.value < next)
    && 0 < next
  }

  /** No two rows share an id or a number. */
  ghost predicate Unique(known: set<Row>) {
    forall r, q :: r in known && q in known && (r.id == q.id || r.number == q.number) ==> r == q
  }

  /** A number that is drawn and not yet used is nobody else's. */
  ghost predicate Apart(known: set<Row>, open: map<Id, Tx>) {
    && (forall tx, r :: tx in open && open[tx].drawn.Some? && r in known ==> r.number != open[tx].drawn.value)
    && (forall tx, ux :: tx in open && ux in open && open[tx].drawn.Some? && open[tx].drawn == open[ux].drawn
          ==> tx == ux)
  }

  /** A business row is held by one transaction at a time. */
  ghost predicate Exclusive(open: map<Id, Tx>) {
    && (forall tx, ux :: tx in open && ux in open && open[tx].business == open[ux].business ==> tx == ux)
    && (forall tx, r :: tx in open && r in open[tx].rows ==> r.business == open[tx].business)
  }

  /** Everything a transaction has drawn or inserted comes after everything its business has committed. */
  ghost predicate Later(committed: set<Row>, tx: Tx) {
    && (forall r, q :: r in tx.rows && q in committed && q.business == tx.business ==> q.number < r.number)
    && (forall q :: tx.drawn.Some? && q in committed && q.business == tx.business ==> q.number < tx.drawn.value)
  }

  ghost predicate CommitOrder(committed: set<Row>, open: map<Id, Tx>) {
    forall tx :: tx in open ==> Later(committed, open[tx])
  }

  /** The reader has consumed exactly the committed events of its business up to its cursor, in order. */
  ghost predicate Exact(committed: set<Row>, business: Id, consumed: seq<Row>) {
    && (forall j, k :: 0 <= j < k < |consumed| ==> consumed[j].number < consumed[k].number)
    && (forall r :: r in consumed <==> r in committed && r.business == business && r.number <= CursorNumber(consumed))
  }

  ghost predicate LogOk(committed: set<Row>, open: map<Id, Tx>, next: nat) {
    && Numbered(Known(committed, open), open, next)
    && Unique(Known(committed, open))
    && Apart(Known(committed, open), open)
    && Exclusive(open)
    && CommitOrder(committed, open)
  }

  ghost predicate Inv(s: Feed) {
    && LogOk(s.committed, s.open, s.next)
    && Exact(s.committed, s.reader.business, s.reader.consumed)
    && (s.reader.from.Some? ==> s.reader.from.value == CursorNumber(s.reader.consumed))
  }

  // ----- Every step keeps it

  lemma KnownWith(committed: set<Row>, open: map<Id, Tx>, tx: Id, t: Tx)
    requires tx in open ==> open[tx].rows <= t.rows
    ensures Known(committed, open[tx := t]) == Known(committed, open) + t.rows
  {
    var open' := open[tx := t];
    forall r | r in Known(committed, open) + t.rows ensures r in Known(committed, open') {
      if r in t.rows {
        assert tx in open' && r in open'[tx].rows;
      } else if r !in committed {
        var u :| u in open && r in open[u].rows;
        assert u in open' && r in open'[u].rows;
      }
    }
  }

  lemma LockKeepsApart(known: set<Row>, open: map<Id, Tx>, next: nat, tx: Id, business: Id)
    requires Numbered(known, open, next) && Apart(known, open)
    ensures var open' := open[tx := Tx(business, None, {})]; Numbered(known, open', next) && Apart(known, open')
  {
  }

  lemma LockKeepsOrder(committed: set<Row>, open: map<Id, Tx>, tx: Id, business: Id)
    requires Exclusive(open) && CommitOrder(committed, open)
    requires forall other :: other in open ==> open[other].business != business
    ensures var open' := open[tx := Tx(business, None, {})]; Exclusive(open') && CommitOrder(committed, open')
  {
  }

  lemma LockKeepsLog(s: Feed, tx: Id, business: Id)
    requires LogOk(s.committed, s.open, s.next) && Enabled(true, s, Lock(tx, business))
    ensures LogOk(s.committed, s.open[tx := Tx(business, None, {})], s.next)
  {
    var known := Known(s.committed, s.open);
    KnownWith(s.committed, s.open, tx, Tx(business, None, {}));
    assert known + {} == known;
    LockKeepsApart(known, s.open, s.next, tx, business);
    LockKeepsOrder(s.committed, s.open, tx, business);
  }

  lemma DrawKeepsApart(known: set<Row>, open: map<Id, Tx>, next: nat, tx: Id)
    requires Numbered(known, open, next) && Apart(known, open) && tx in open
    ensures var open' := open[tx := open[tx].(drawn := Some(next))];
            Numbered(known, open', next + 1) && Apart(known, open')
  {
  }

  lemma DrawKeepsOrder(committed: set<Row>, open: map<Id, Tx>, next: nat, tx: Id)
    requires Exclusive(open) && CommitOrder(committed, open) && tx in open
    requires forall q :: q in committed ==> q.number < next
    ensures var open' := open[tx := open[tx].(drawn := Some(next))]; Exclusive(open') && CommitOrder(committed, open')
  {
    assert Later(committed, open[tx]);
  }

  lemma OwnRowsAreKnown(committed: set<Row>, open: map<Id, Tx>)
    ensures committed <= Known(committed, open)
    ensures forall tx :: tx in open ==> open[tx].rows <= Known(committed, open)
  {
  }

  lemma DrawKeepsLog(s: Feed, tx: Id)
    requires LogOk(s.committed, s.open, s.next) && Enabled(true, s, Draw(tx))
    ensures var s' := Next(true, s, Draw(tx)); LogOk(s'.committed, s'.open, s'.next)
  {
    var known := Known(s.committed, s.open);
    OwnRowsAreKnown(s.committed, s.open);
    KnownWith(s.committed, s.open, tx, s.open[tx].(drawn := Some(s.next)));
    assert known + s.open[tx].rows == known;
    DrawKeepsApart(known, s.open, s.next, tx);
    DrawKeepsOrder(s.committed, s.open, s.next, tx);
  }

  lemma InsertKeepsApart(known: set<Row>, open: map<Id, Tx>, next: nat, tx: Id, row: Row)
    requires Numbered(known, open, next) && Unique(known) && Apart(known, open)
    requires tx in open && open[tx].drawn == Some(row.number) && forall r :: r in known ==> r.id != row.id
    ensures var open' := open[tx := open[tx].(drawn := None, rows := open[tx].rows + {row})];
            Numbered(known + {row}, open', next) && Unique(known + {row}) && Apart(known + {row}, open')
  {
  }

  lemma InsertKeepsOrder(committed: set<Row>, open: map<Id, Tx>, tx: Id, row: Row)
    requires Exclusive(open) && CommitOrder(committed, open)
    requires tx in open && open[tx].drawn == Some(row.number) && row.business == open[tx].business
    ensures var open' := open[tx := open[tx].(drawn := None, rows := open[tx].rows + {row})];
            Exclusive(open') && CommitOrder(committed, open')
  {
    assert Later(committed, open[tx]);
  }

  lemma InsertKeepsLog(s: Feed, tx: Id, id: Id)
    requires LogOk(s.committed, s.open, s.next) && Enabled(true, s, Insert(tx, id))
    ensures var s' := Next(true, s, Insert(tx, id)); LogOk(s'.committed, s'.open, s'.next)
  {
    var known := Known(s.committed, s.open);
    var t := s.open[tx];
    var row := Row(id, t.business, t.drawn.value);
    OwnRowsAreKnown(s.committed, s.open);
    KnownWith(s.committed, s.open, tx, t.(drawn := None, rows := t.rows + {row}));
    assert known + (t.rows + {row}) == known + {row};
    InsertKeepsApart(known, s.open, s.next, tx, row);
    InsertKeepsOrder(s.committed, s.open, tx, row);
  }

  lemma AbortKeepsLog(s: Feed, tx: Id)
    requires LogOk(s.committed, s.open, s.next) && Enabled(true, s, Abort(tx))
    ensures LogOk(s.committed, s.open - {tx}, s.next)
  {
    assert Known(s.committed, s.open - {tx}) <= Known(s.committed, s.open);
  }

  /** Only the holder of the lock commits for its business, so no other transaction's rows are overtaken. */
  lemma CommitKeepsLog(s: Feed, tx: Id)
    requires LogOk(s.committed, s.open, s.next) && Enabled(true, s, Commit(tx))
    ensures LogOk(s.committed + s.open[tx].rows, s.open - {tx}, s.next)
  {
    assert Known(s.committed + s.open[tx].rows, s.open - {tx}) <= Known(s.committed, s.open);
    forall ux | ux in s.open - {tx} ensures Later(s.committed + s.open[tx].rows, s.open[ux]) {
      assert Later(s.committed, s.open[ux]);
    }
  }

  lemma CommitKeepsExact(s: Feed, tx: Id)
    requires Inv(s) && Enabled(true, s, Commit(tx))
    ensures Exact(s.committed + s.open[tx].rows, s.reader.business, s.reader.consumed)
  {
    assert Later(s.committed, s.open[tx]);
    forall r | r in s.open[tx].rows && r.business == s.reader.business
      ensures r.number > CursorNumber(s.reader.consumed)
    {
      assert r in Known(s.committed, s.open);
      if s.reader.consumed != [] {
        assert s.reader.consumed[|s.reader.consumed| - 1] in s.reader.consumed;
      }
    }
  }

  lemma CursorIsFound(s: Feed)
    requires Inv(s)
    ensures LookUp(s) == CursorNumber(s.reader.consumed)
  {
    if s.reader.consumed != [] {
      var last := s.reader.consumed[|s.reader.consumed| - 1];
      assert last in s.reader.consumed && last in s.committed;
      assert forall r :: r in s.committed ==> r in Known(s.committed, s.open);
    }
  }

  lemma PageRows(committed: set<Row>, business: Id, from: nat, limit: nat, fetched: seq<Row>)
    requires IsFirst(After(committed, business, from), limit + 1, fetched)
    requires forall r, q :: r in committed && q in committed && r.number == q.number ==> r == q
    ensures var page := Overfetched(fetched, limit);
            && (forall j, k :: 0 <= j < k < |page.data| ==> page.data[j].number < page.data[k].number)
            && (forall r :: r in page.data ==> r in committed && r.business == business && r.number > from)
            && (forall r, j :: r in committed && r.business == business && r.number > from && r !in page.data && 0 <= j < |page.data|
                  ==> page.data[j].number < r.number)
            && (!page.hasMore ==>
                  forall r :: r in committed && r.business == business && r.number > from ==> r in page.data)
  {
    var rows := After(committed, business, from);
    var page := Overfetched(fetched, limit);
    OverfetchIsFirst(rows, limit, fetched);
    forall j, k | 0 <= j < k < |page.data| ensures page.data[j].number < page.data[k].number {
      assert rows[page.data[j]] <= rows[page.data[k]];
    }
    forall r, j | r in rows && r !in page.data && 0 <= j < |page.data| ensures page.data[j].number < r.number {
      assert rows[page.data[j]] <= rows[r];
      assert page.data[j] in page.data;
    }
    forall r ensures r in committed && r.business == business && r.number > from <==> r in rows {}
  }

  lemma PageExtends(committed: set<Row>, business: Id, consumed: seq<Row>, page: seq<Row>)
    requires Exact(committed, business, consumed)
    requires forall j, k :: 0 <= j < k < |page| ==> page[j].number < page[k].number
    requires forall r :: r in page ==> r in committed && r.business == business && r.number > CursorNumber(consumed)
    requires forall r, j :: r in committed && r.business == business && r.number > CursorNumber(consumed) && r !in page && 0 <= j < |page|
               ==> page[j].number < r.number
    ensures Exact(committed, business, consumed + page)
  {
    var more := consumed + page;
    if page == [] {
      assert more == consumed;
    } else {
      var last := page[|page| - 1];
      assert CursorNumber(more) == last.number;
      forall j, k | 0 <= j < k < |more| ensures more[j].number < more[k].number {
        if j < |consumed| <= k {
          assert more[k] == page[k - |consumed|] && more[k] in page;
          assert j < |consumed| - 1 ==> consumed[j].number < consumed[|consumed| - 1].number;
        }
      }
      forall r ensures r in more <==> r in committed && r.business == business && r.number <= last.number {
        if r in page {
          var j :| 0 <= j < |page| && page[j] == r;
          assert j < |page| - 1 ==> page[j].number < last.number;
        } else if r in consumed {
          assert last in page;
        }
      }
    }
  }

  lemma PageKeepsExact(s: Feed, limit: nat, fetched: seq<Row>)
    requires Inv(s) && Enabled(true, s, ReadPage(limit, fetched))
    ensures Exact(s.committed, s.reader.business, s.reader.consumed + Overfetched(fetched, limit).data)
    ensures !Overfetched(fetched, limit).hasMore ==>
              forall r :: r in s.committed && r.business == s.reader.business ==>
                r in s.reader.consumed + Overfetched(fetched, limit).data
  {
    var from := s.reader.from.value;
    assert forall r :: r in s.committed ==> r in Known(s.committed, s.open);
    PageRows(s.committed, s.reader.business, from, limit, fetched);
    PageExtends(s.committed, s.reader.business, s.reader.consumed, Overfetched(fetched, limit).data);
  }

  lemma StepKeepsInv(s: Feed, step: Step)
    requires Inv(s) && Enabled(true, s, step)
    ensures Inv(Next(true, s, step))
  {
    if step.ReadCursor? {
      CursorIsFound(s);
    } else if step.ReadPage? {
      PageKeepsExact(s, step.limit, step.fetched);
    } else if step.Lock? {
      LockKeepsLog(s, step.tx, step.business);
    } else if step.Draw? {
      DrawKeepsLog(s, step.tx);
    } else if step.Insert? {
      InsertKeepsLog(s, step.tx, step.id);
    } else if step.Abort? {
      AbortKeepsLog(s, step.tx);
    } else {
      CommitKeepsLog(s, step.tx);
      CommitKeepsExact(s, step.tx);
    }
  }

  lemma {:induction false} RunKeepsInv(s: Feed, steps: seq<Step>)
    requires Inv(s) && Run(true, s, steps).Some?
    ensures Inv(Run(true, s, steps).value)
    decreases |steps|
  {
    if steps != [] {
      StepKeepsInv(s, steps[0]);
      RunKeepsInv(Next(true, s, steps[0]), steps[1..]);
    }
  }

  // ----- Results

  /** Whatever commits, aborts and reads were interleaved, and whatever limits the reader used, it holds exactly the
      committed events of its business up to its cursor, each once, in order. */
  lemma FeedNeverSkips(business: Id, steps: seq<Step>)
    requires Run(true, Initial(business), steps).Some?
    ensures var s := Run(true, Initial(business), steps).value;
            Exact(s.committed, s.reader.business, s.reader.consumed)
  {
    RunKeepsInv(Initial(business), steps);
  }

  /** A page that says there is no more leaves the reader with every event committed so far. */
  lemma LastPageCatchesUp(business: Id, steps: seq<Step>, limit: nat, fetched: seq<Row>)
    requires Run(true, Initial(business), steps).Some?
    requires var s := Run(true, Initial(business), steps).value;
             Enabled(true, s, ReadPage(limit, fetched)) && !Overfetched(fetched, limit).hasMore
    ensures var s := Run(true, Initial(business), steps).value;
            forall r :: r in s.committed && r.business == s.reader.business ==>
              r in Next(true, s, ReadPage(limit, fetched)).reader.consumed
  {
    RunKeepsInv(Initial(business), steps);
    PageKeepsExact(Run(true, Initial(business), steps).value, limit, fetched);
  }

  ghost predicate Grows(s: Feed, s': Feed) {
    && s.committed <= s'.committed
    && s.next <= s'.next
    && forall r, q :: r in s'.committed && r !in s.committed && q in s.committed && q.business == r.business
         ==> q.number < r.number
  }

  lemma StepGrows(s: Feed, step: Step)
    requires Inv(s) && Enabled(true, s, step)
    ensures Grows(s, Next(true, s, step))
  {
    if step.Commit? {
      assert Later(s.committed, s.open[step.tx]);
    }
  }

  /** `seq` order is commit order: an event committed later than another of its business has the larger number. */
  lemma {:induction false} NumbersFollowCommits(s: Feed, steps: seq<Step>)
    requires Inv(s) && Run(true, s, steps).Some?
    ensures Grows(s, Run(true, s, steps).value)
    decreases |steps|
  {
    if steps != [] {
      StepKeepsInv(s, steps[0]);
      StepGrows(s, steps[0]);
      NumbersFollowCommits(Next(true, s, steps[0]), steps[1..]);
    }
  }

  // ----- Without the lock

  ghost predicate Reached(locking: bool, business: Id, s: Feed) {
    exists steps :: Run(locking, Initial(business), steps) == Some(s)
  }

  lemma {:induction false} RunThen(locking: bool, s: Feed, steps: seq<Step>, step: Step)
    requires Run(locking, s, steps).Some? && Enabled(locking, Run(locking, s, steps).value, step)
    ensures Run(locking, s, steps + [step]) == Some(Next(locking, Run(locking, s, steps).value, step))
    decreases |steps|
  {
    if steps == [] {
      assert (steps + [step])[1..] == [];
    } else {
      assert (steps + [step])[1..] == steps[1..] + [step];
      RunThen(locking, Next(locking, s, steps[0]), steps[1..], step);
    }
  }

  lemma Extend(locking: bool, business: Id, s: Feed, step: Step) returns (s': Feed)
    requires Reached(locking, business, s) && Enabled(locking, s, step)
    ensures s' == Next(locking, s, step) && Reached(locking, business, s')
  {
    var steps :| Run(locking, Initial(business), steps) == Some(s);
    RunThen(locking, Initial(business), steps, step);
    s' := Next(locking, s, step);
  }

  /** Two transactions of one business draw 1 and 2. */
  lemma BothDraw(business: Id) returns (s: Feed)
    ensures Reached(false, business, s)
    ensures s.committed == {} && s.reader == Reader(business, [], None)
    ensures s.open == map[0 := Tx(business, Some(1), {}), 1 := Tx(business, Some(2), {})]
  {
    s := Initial(business);
    assert Run(false, s, []) == Some(s);
    s := Extend(false, business, s, Lock(0, business));
    s := Extend(false, business, s, Draw(0));
    s := Extend(false, business, s, Lock(1, business));
    s := Extend(false, business, s, Draw(1));
  }

  /** And the second commits first. */
  lemma SecondCommitsFirst(business: Id) returns (s: Feed)
    ensures Reached(false, business, s)
    ensures s.committed == {Row(11, business, 2)} && s.reader == Reader(business, [], None)
    ensures s.open == map[0 := Tx(business, Some(1), {})]
  {
    s := BothDraw(business);
    s := Extend(false, business, s, Insert(1, 11));
    s := Extend(false, business, s, Commit(1));
  }

  /** A reader that looks in between has moved past the first when it commits. */
  lemma FirstIsSkipped(business: Id, s0: Feed) returns (s: Feed)
    requires Reached(false, business, s0)
    requires s0.committed == {Row(11, business, 2)} && s0.reader == Reader(business, [], None)
    requires s0.open == map[0 := Tx(business, Some(1), {})]
    ensures Reached(false, business, s) && !Exact(s.committed, s.reader.business, s.reader.consumed)
  {
    var late := Row(11, business, 2);
    s := Extend(false, business, s0, ReadCursor);
    assert After(s.committed, business, 0) == map[late := 2];
    s := Extend(false, business, s, ReadPage(20, [late]));
    assert s.reader.consumed == [late];
    s := Extend(false, business, s, Insert(0, 10));
    s := Extend(false, business, s, Commit(0));
    assert Row(10, business, 1) in s.committed;
  }

  /** The reader is exact in every run if and only if drawing a number requires the business row lock. */
  lemma ExactIffLocked(locking: bool, business: Id)
    ensures locking <==>
              forall s :: Reached(locking, business, s) ==> Exact(s.committed, s.reader.business, s.reader.consumed)
  {
    if locking {
      forall s | Reached(locking, business, s) ensures Exact(s.committed, s.reader.business, s.reader.consumed) {
        var steps :| Run(locking, Initial(business), steps) == Some(s);
        FeedNeverSkips(business, steps);
      }
    } else {
      var s := SecondCommitsFirst(business);
      var skipped := FirstIsSkipped(business, s);
    }
  }
}
