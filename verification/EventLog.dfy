/** The events table as the service writes and reads it. */
module EventLog {
  import opened Common
  import opened Sql
  import opened Pagination
  import opened EventFeed

  datatype Fault = InvalidLimit | UnknownCursor

  ghost predicate Fresh(known: set<Row>, id: Id) {
    forall r :: r in known ==> r.id != id
  }

  /** A transaction without rows adds nothing to what is known. */
  lemma EmptyTxIsUnknown(committed: set<Row>, open: map<Id, Tx>, tx: Id, t: Tx)
    requires tx !in open && t.rows == {}
    ensures Known(committed, open[tx := t]) == Known(committed, open)
  {
    KnownWith(committed, open, tx, t);
    assert Known(committed, open) + {} == Known(committed, open);
  }

  class EventLog {
    var committed: set<Row>
    var open: map<Id, Tx>
    var next: nat

    ghost predicate Valid()
      reads this
    {
      LogOk(committed, open, next)
    }

    ghost function View(): Feed
      reads this
    {
      Feed(committed, open, next, Reader(0, [], None))
    }

    constructor ()
      ensures Valid() && committed == {} && open == map[] && next == 1
    {
      committed, open, next := {}, map[], 1;
    }

    /** SELECT ... FOR NO KEY UPDATE: waits until no other transaction holds the business row. */
    method LockBusiness(tx: Id, business: Id)
      requires Valid() && tx !in open && forall other :: other in open ==> open[other].business != business
      modifies this
      ensures Valid() && committed == old(committed) && next == old(next)
      ensures open == old(open)[tx := Tx(business, None, {})]
    {
      LockKeepsLog(View(), tx, business);
      open := open[tx := Tx(business, None, {})];
    }

    method DrawNumber(tx: Id)
      requires Valid() && tx in open && open[tx].drawn.None?
      modifies this
      ensures Valid() && committed == old(committed) && next == old(next) + 1
      ensures open == old(open)[tx := old(open)[tx].(drawn := Some(old(next)))]
      ensures forall q :: q in committed && q.business == open[tx].business ==> q.number < open[tx].drawn.value
    {
      DrawKeepsLog(View(), tx);
      open, next := open[tx := open[tx].(drawn := Some(next))], next + 1;
      assert Later(committed, open[tx]);
    }

    method InsertRow(tx: Id, id: Id)
      requires Valid() && tx in open && open[tx].drawn.Some? && Fresh(Known(committed, open), id)
      modifies this
      ensures Valid() && committed == old(committed) && next == old(next)
      ensures var t := old(open)[tx];
              open == old(open)[tx := Tx(t.business, None, t.rows + {Row(id, t.business, t.drawn.value)})]
    {
      InsertKeepsLog(View(), tx, id);
      var t := open[tx];
      open := open[tx := Tx(t.business, None, t.rows + {Row(id, t.business, t.drawn.value)})];
    }

    method Record(tx: Id, business: Id, id: Id)
      requires Valid() && tx !in open && (forall other :: other in open ==> open[other].business != business)
      requires Fresh(Known(committed, open), id)
      modifies this
      ensures Valid()
      ensures committed == old(committed) && next == old(next) + 1
      ensures open == old(open)[tx := Tx(business, None, {Row(id, business, old(next))})]
    {
      hide LogOk;
      LockBusiness(tx, business);
      DrawNumber(tx);
      EmptyTxIsUnknown(old(committed), old(open), tx, Tx(business, Some(old(next)), {}));
      assert open == old(open)[tx := Tx(business, Some(old(next)), {})];
      InsertRow(tx, id);
      assert {} + {Row(id, business, old(next))} == {Row(id, business, old(next))};
    }

    method Commit(tx: Id)
      requires Valid() && tx in open
      modifies this
      ensures Valid()
      ensures committed == old(committed) + old(open)[tx].rows && open == old(open) - {tx} && next == old(next)
      // seq order is commit order.
      ensures forall r, q :: r in committed && r !in old(committed) && q in old(committed) && q.business == r.business
                ==> q.number < r.number
    {
      CommitKeepsLog(View(), tx);
      assert Later(committed, open[tx]);
      committed := committed + open[tx].rows;
      open := open - {tx};
    }

    method Abort(tx: Id)
      requires Valid() && tx in open
      modifies this
      ensures Valid()
      ensures committed == old(committed) && open == old(open) - {tx} && next == old(next)
    {
      AbortKeepsLog(View(), tx);
      open := open - {tx};
    }

    method ListEvents(business: Id, after: Option<Id>, limit: Option<nat>) returns (page: Result<Page<Row>, Fault>)
      ensures page == Err(InvalidLimit) <==> ResolveLimit(limit).None?
      ensures page == Err(UnknownCursor) <==>
                && ResolveLimit(limit).Some? && after.Some?
                && forall r :: r in committed && r.business == business ==> r.id != after.value
      ensures page.Ok? ==> ResolveLimit(limit).Some? && exists from, fetched ::
                && (if after.None? then from == 0
                    else exists r :: r in committed && r.id == after.value && r.business == business && r.number == from)
                && IsFirst(After(committed, business, from), ResolveLimit(limit).value + 1, fetched)
                && page.value == Overfetched(fetched, ResolveLimit(limit).value)
    {
      var resolved := ResolveLimit(limit);
      if resolved.None? {
        return Err(InvalidLimit);
      }
      var from := 0;
      if after.Some? {
        if r :| r in committed && r.id == after.value && r.business == business {
          from := r.number;
        } else {
          return Err(UnknownCursor);
        }
      }
      var fetched := OrderByLimit(After(committed, business, from), resolved.value + 1);
      var shown := FromOverfetch(fetched, resolved.value);
      page := Ok(shown);
    }
  }
}
