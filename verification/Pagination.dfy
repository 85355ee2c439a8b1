/** Keyset pagination: limits, over-fetching, and what a client that follows the cursor collects. */
module Pagination {
  import opened Common
  import opened Sql

  const DEFAULT_LIMIT: nat := 20
  const MAX_LIMIT: nat := 100

  function ResolveLimit(requested: Option<nat>): (limit: Option<nat>)
    ensures limit.Some? ==> 1 <= limit.value <= 100
    ensures requested.None? ==> limit == Some(20)
    ensures requested.Some? ==> limit == if 1 <= requested.value <= 100 then requested else None
  {
    var limit := if requested.None? then DEFAULT_LIMIT else requested.value;
    if 1 <= limit <= MAX_LIMIT then Some(limit) else None
  }

  datatype Page<T> = Page(data: seq<T>, hasMore: bool)

  /** A page from a query that fetched one row more than it shows. */
  method FromOverfetch<T>(fetched: seq<T>, limit: nat) returns (page: Page<T>)
    ensures page == Overfetched(fetched, limit)
  {
    var rows := fetched;
    var hasMore := |rows| > limit;
    if |rows| > limit {
      rows := rows[..limit];
    }
    page := Page(rows, hasMore);
  }

  function Overfetched<T>(fetched: seq<T>, limit: nat): Page<T> {
    Page(if |fetched| <= limit then fetched else fetched[..limit], |fetched| > limit)
  }

  /** Fetching limit + 1 rows and showing limit of them gives the first `limit` rows of the query, and hasMore tells
      whether any row was left out. */
  lemma OverfetchIsFirst<K>(column: map<K, int>, limit: nat, fetched: seq<K>)
    requires IsFirst(column, limit + 1, fetched)
    ensures var page := Overfetched(fetched, limit);
            && IsFirst(column, limit, page.data)
            && (page.hasMore <==> |column| > limit)
            && (!page.hasMore ==> forall k :: k in column ==> k in page.data)
  {
    var page := Overfetched(fetched, limit);
    if page.hasMore {
      forall j, k | 0 <= j < |page.data| && k in column && k !in page.data
        ensures column[page.data[j]] <= column[k]
      {
        if k in fetched {
          var i :| 0 <= i < |fetched| && fetched[i] == k;
          assert i == limit;
        }
      }
    } else {
      AllFetched(column, fetched);
    }
  }

  lemma {:induction false} Distinct<K>(rows: seq<K>)
    requires forall j, k :: 0 <= j < k < |rows| ==> rows[j] != rows[k]
    ensures |set k | k in rows| == |rows|
  {
    if rows != [] {
      var front := rows[..|rows| - 1];
      Distinct(front);
      assert (set k | k in rows) == (set k | k in front) + {rows[|rows| - 1]};
    }
  }

  lemma AllFetched<K>(column: map<K, int>, fetched: seq<K>)
    requires IsFirst(column, |column|, fetched)
    ensures forall k :: k in column ==> k in fetched
  {
    Distinct(fetched);
    var all := set k | k in fetched;
    assert all <= column.Keys && |column.Keys| == |column|;
    SubsetOfSameSize(all, column.Keys);
  }

  lemma SubsetOfSameSize<K>(part: set<K>, whole: set<K>)
    requires part <= whole && |part| == |whole|
    ensures part == whole
  {
    assert |whole - part| == 0;
  }

  // ----- Lists, newest first

  predicate Below(id: Id, cursor: Option<Id>) {
    cursor.None? || id < cursor.value
  }

  /** WHERE id < cursor ORDER BY id DESC, over the ids that match the filter. */
  function Listing(matching: set<Id>, cursor: Option<Id>): map<Id, int> {
    map id | id in matching && Below(id, cursor) :: -id
  }

  /** starting_after for the next request: the last id seen. */
  function Cursor(collected: seq<Id>): Option<Id> {
    if collected == [] then None else Some(collected[|collected| - 1])
  }

  /** One request of a walk. Rows may have come since the walk began, above the cursor or below it: an id is drawn
      before its row commits, so a row can turn up late among older ones. */
  datatype Visit = Visit(matching: set<Id>, limit: nat, fetched: seq<Id>)

  /** `start`: the rows that match from the beginning until the walk is past them. */
  ghost predicate IsWalk(start: set<Id>, visits: seq<Visit>)
    decreases |visits|
  {
    visits == [] ||
    var front := visits[..|visits| - 1];
    var last := visits[|visits| - 1];
    var cursor := Cursor(Collected(front));
    && IsWalk(start, front)
    && (forall id :: id in start && Below(id, cursor) ==> id in last.matching)
    && IsFirst(Listing(last.matching, cursor), last.limit + 1, last.fetched)
  }

  /** Request k could return this row: it matched then, and lay below the cursor. */
  ghost predicate ReadBy(visits: seq<Visit>, k: nat, id: Id)
    requires k < |visits|
  {
    id in visits[k].matching && Below(id, Cursor(Collected(visits[..k])))
  }

  function Collected(visits: seq<Visit>): seq<Id>
    decreases |visits|
  {
    if visits == [] then []
    else
      var last := visits[|visits| - 1];
      Collected(visits[..|visits| - 1]) + Overfetched(last.fetched, last.limit).data
  }

  /** The client holds rows newest first and once each, among them every one of `start` down to its cursor. */
  ghost predicate Complete(start: set<Id>, collected: seq<Id>) {
    && (forall j, k :: 0 <= j < k < |collected| ==> collected[j] > collected[k])
    && (forall id :: id in start && !Below(id, Cursor(collected)) ==> id in collected)
  }

  /** The next page continues downwards, and takes the topmost rows below the cursor. */
  lemma PageIsNext(cursor: Option<Id>, visit: Visit)
    requires IsFirst(Listing(visit.matching, cursor), visit.limit + 1, visit.fetched)
    ensures var page := Overfetched(visit.fetched, visit.limit);
            && (forall j, k :: 0 <= j < k < |page.data| ==> page.data[j] > page.data[k])
            && (forall id :: id in page.data ==> id in visit.matching && Below(id, cursor))
            && (forall id, j :: id in visit.matching && Below(id, cursor) && id !in page.data && 0 <= j < |page.data| ==>
                  id < page.data[j])
            && (!page.hasMore ==> forall id :: id in visit.matching && Below(id, cursor) ==> id in page.data)
  {
    var page := Overfetched(visit.fetched, visit.limit);
    var listing := Listing(visit.matching, cursor);
    OverfetchIsFirst(listing, visit.limit, visit.fetched);
    FirstOfListing(visit.matching, cursor, visit.limit, page.data);
    forall id ensures id in visit.matching && Below(id, cursor) <==> id in listing {}
  }

  lemma FirstOfListing(matching: set<Id>, cursor: Option<Id>, limit: nat, rows: seq<Id>)
    requires IsFirst(Listing(matching, cursor), limit, rows)
    ensures forall j, k :: 0 <= j < k < |rows| ==> rows[j] > rows[k]
    ensures forall id :: id in rows ==> id in Listing(matching, cursor)
    ensures forall id, j :: id in Listing(matching, cursor) && id !in rows && 0 <= j < |rows| ==> id < rows[j]
  {
    var listing := Listing(matching, cursor);
    forall j, k | 0 <= j < k < |rows| ensures rows[j] > rows[k] {
      assert listing[rows[j]] <= listing[rows[k]];
    }
    forall id, j | id in listing && id !in rows && 0 <= j < |rows| ensures id < rows[j] {
      assert listing[rows[j]] <= listing[id];
      assert rows[j] in rows;
    }
  }

  lemma PageExtends(start: set<Id>, collected: seq<Id>, page: seq<Id>)
    requires Complete(start, collected)
    requires forall j, k :: 0 <= j < k < |page| ==> page[j] > page[k]
    requires forall id :: id in page ==> Below(id, Cursor(collected))
    requires forall id, j :: id in start && Below(id, Cursor(collected)) && id !in page && 0 <= j < |page| ==> id < page[j]
    ensures Complete(start, collected + page)
  {
    var more := collected + page;
    if page == [] {
      assert more == collected;
    } else {
      var last := page[|page| - 1];
      assert Cursor(more) == Some(last);
      forall j | 0 <= j < |collected| ensures collected[j] >= collected[|collected| - 1] > last {
        assert last in page;
      }
      forall j, k | 0 <= j < k < |more| ensures more[j] > more[k] {
        if j < |collected| <= k {
          assert more[k] == page[k - |collected|] && more[k] in page;
        }
      }
      forall id | id in start && id >= last ensures id in more {
        assert id in collected || id in page;
      }
    }
  }

  lemma ReadByEither(visits: seq<Visit>, k: nat, id: Id)
    requires k < |visits| - 1
    ensures ReadBy(visits[..|visits| - 1], k, id) <==> ReadBy(visits, k, id)
  {
    assert visits[..|visits| - 1][..k] == visits[..k];
  }

  /** Every row collected matched when it was read. */
  lemma {:induction false} CollectedWereRead(start: set<Id>, visits: seq<Visit>)
    requires IsWalk(start, visits)
    ensures forall id :: id in Collected(visits) ==> exists k :: 0 <= k < |visits| && ReadBy(visits, k, id)
    decreases |visits|
  {
    if visits != [] {
      var front := visits[..|visits| - 1];
      var last := visits[|visits| - 1];
      CollectedWereRead(start, front);
      PageIsNext(Cursor(Collected(front)), last);
      hide IsFirst, Listing, Below, Overfetched;
      forall id | id in Collected(visits) ensures exists k :: 0 <= k < |visits| && ReadBy(visits, k, id) {
        if id in Overfetched(last.fetched, last.limit).data {
          assert visits[..|visits| - 1] == front;
          assert ReadBy(visits, |visits| - 1, id);
        } else {
          assert id in Collected(front);
          var k :| 0 <= k < |front| && ReadBy(front, k, id);
          ReadByEither(visits, k, id);
        }
      }
    }
  }

  /** Following the cursor with any limits collects rows newest first and never one twice, and skips no row that matches
      throughout; when a page says there is no more, none of those is missing. */
  lemma {:induction false} WalkIsComplete(start: set<Id>, visits: seq<Visit>)
    requires IsWalk(start, visits)
    ensures Complete(start, Collected(visits))
    ensures visits != [] && !Overfetched(visits[|visits| - 1].fetched, visits[|visits| - 1].limit).hasMore ==>
              forall id :: id in start ==> id in Collected(visits)
    decreases |visits|
  {
    if visits != [] {
      var front := visits[..|visits| - 1];
      WalkIsComplete(start, front);
      var last := visits[|visits| - 1];
      var page := Overfetched(last.fetched, last.limit);
      PageIsNext(Cursor(Collected(front)), last);
      PageExtends(start, Collected(front), page.data);
    }
  }

  /** In particular, if nothing new turns up below the cursor, the client holds exactly the rows of `start` down to its
      cursor. */
  lemma WalkIsExact(start: set<Id>, visits: seq<Visit>)
    requires IsWalk(start, visits)
    requires forall k, id :: 0 <= k < |visits| && ReadBy(visits, k, id) ==> id in start
    ensures forall id :: id in Collected(visits) <==> id in start && !Below(id, Cursor(Collected(visits)))
  {
    WalkIsComplete(start, visits);
    CollectedWereRead(start, visits);
    var collected := Collected(visits);
    forall id | id in collected ensures !Below(id, Cursor(collected)) {
      var j :| 0 <= j < |collected| && collected[j] == id;
      assert j < |collected| - 1 ==> collected[j] > collected[|collected| - 1];
    }
  }
}
