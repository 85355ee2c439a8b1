/** The webhook tables as the dispatcher, the event log and the endpoint API update them. */
module DeliveryTable {
  import opened Common
  import opened Config
  import opened Sql
  import opened Pagination
  import opened Deliveries
  import opened Text

  const BATCH_SIZE: nat := 32
  const MAX_ERROR_LEN: nat := 500

  datatype Endpoint = Endpoint(business: Id, disabledAt: Option<Time>)

  datatype DeliveryId = DeliveryId(event: Id, endpoint: Id)

  datatype LeasedDelivery = LeasedDelivery(id: DeliveryId, number: nat)

  /** The column lease_due orders by, restricted to the due rows that nobody has locked. */
  function DueColumn(rows: map<DeliveryId, Delivery>, locked: set<DeliveryId>, now: Time): map<DeliveryId, int> {
    map d | d in rows && Deliveries.IsDue(rows[d], now) && d !in locked :: rows[d].nextAttemptAt
  }

  function Ids(leased: seq<LeasedDelivery>): seq<DeliveryId> {
    seq(|leased|, j requires 0 <= j < |leased| => leased[j].id)
  }

  function LeaseAll(rows: map<DeliveryId, Delivery>, taken: seq<DeliveryId>, now: Time): map<DeliveryId, Delivery> {
    map d | d in rows :: if d in taken then Deliveries.Leased(rows[d], now) else rows[d]
  }

  function Keyed(event: Id, active: set<Id>): set<DeliveryId> {
    set e | e in active :: DeliveryId(event, e)
  }

  function New(event: Id, active: set<Id>, now: Time): (rows: map<DeliveryId, Delivery>)
    ensures forall e :: e in active ==> DeliveryId(event, e) in rows
    ensures forall d :: d in rows ==> d.event == event && d.endpoint in active && rows[d] == Delivery(Pending, 0, now)
  {
    map d | d in Keyed(event, active) :: Delivery(Pending, 0, now)
  }

  class DeliveryTable {
    var endpoints: map<Id, Endpoint>
    var rows: map<DeliveryId, Delivery>

    constructor ()
      ensures endpoints == map[] && rows == map[]
    {
      endpoints, rows := map[], map[];
    }

    /** One row per endpoint of the business that is active right now, and no other row is touched; an endpoint
        registered later gets no history. */
    method FanOut(event: Id, business: Id, now: Time)
      requires forall d :: d in rows ==> d.event != event
      modifies this`rows
      ensures forall e :: DeliveryId(event, e) in rows <==>
                e in endpoints && endpoints[e].business == business && endpoints[e].disabledAt.None?
      ensures forall e :: DeliveryId(event, e) in rows ==> rows[DeliveryId(event, e)] == Delivery(Pending, 0, now)
      ensures forall d :: d in old(rows) ==> d in rows && rows[d] == old(rows)[d]
      ensures forall d :: d in rows && d !in old(rows) ==> d.event == event
    {
      var active := set e | e in endpoints && endpoints[e].business == business && endpoints[e].disabledAt.None?;
      rows := rows + New(event, active, now);
    }

    /** Leases the first 32 due rows that nobody has locked. Each gets the next attempt number, and no other row is
        touched; a batch that is not full leaves only locked rows due. */
    method LeaseDue(locked: set<DeliveryId>, now: Time) returns (leased: seq<LeasedDelivery>)
      modifies this`rows
      ensures IsFirst(DueColumn(old(rows), locked, now), BATCH_SIZE, Ids(leased))
      ensures rows == LeaseAll(old(rows), Ids(leased), now)
      ensures forall j :: 0 <= j < |leased| ==>
                && leased[j].id in old(rows) && leased[j].id in rows && leased[j].id !in locked
                && old(rows)[leased[j].id].status == Pending && old(rows)[leased[j].id].nextAttemptAt <= now
                && leased[j].number == old(rows)[leased[j].id].attemptCount + 1
                && rows[leased[j].id] == Delivery(Pending, leased[j].number, now + 60 * SECOND)
      ensures |leased| <= 32
      ensures forall d :: d in old(rows) && d !in Ids(leased) ==> d in rows && rows[d] == old(rows)[d]
      ensures |leased| < 32 ==>
                forall d :: d in rows && rows[d].status == Pending && rows[d].nextAttemptAt <= now ==> d in locked
    {
      var column := DueColumn(rows, locked, now);
      var taken := OrderByLimit(column, BATCH_SIZE);
      if |taken| < BATCH_SIZE { AllFetched(column, taken); }
      var next := LeaseAll(rows, taken, now);
      rows := next;
      leased := seq(|taken|, j requires 0 <= j < |taken| && taken[j] in next =>
        LeasedDelivery(taken[j], next[taken[j]].attemptCount));
      assert Ids(leased) == taken;
    }

    method RecordResult(leased: LeasedDelivery, result: Response, delay: Time, now: Time)
      requires RetryDelay(leased.number, delay)
      modifies this`rows
      ensures rows == if leased.id in old(rows)
                      then old(rows)[leased.id := WithResult(old(rows)[leased.id], leased.number, result, delay, now)]
                      else old(rows)
      ensures leased.id in old(rows) ==> Recorded(old(rows)[leased.id], leased.number, result, now, rows[leased.id])
      // A result from a lease that was superseded changes nothing; nor does one for a row that is finished.
      ensures leased.id in old(rows) && !Holds(old(rows)[leased.id], leased.number) ==> rows == old(rows)
    {
      if leased.id in rows { ResultIsRecorded(rows[leased.id], leased.number, result, delay, now); }
      if leased.id in rows && rows[leased.id].attemptCount == leased.number && rows[leased.id].status == Pending {
        var row := rows[leased.id];
        match result {
          case Success =>
            row := row.(status := Delivered);
          case Failure =>
            var exhausted := leased.number >= MAX_ATTEMPTS;
            row := row.(status := if exhausted then Exhausted else Pending, nextAttemptAt := now + delay);
        }
        rows := rows[leased.id := row];
      }
      if leased.id in old(rows) && !Holds(old(rows)[leased.id], leased.number) {
        assert old(rows)[leased.id := old(rows)[leased.id]] == old(rows);
      }
    }

    /** Disabling keeps the first timestamp and cancels exactly the endpoint's pending rows. */
    method DisableEndpoint(business: Id, endpoint: Id, now: Time) returns (found: bool)
      modifies this
      ensures found <==> endpoint in old(endpoints) && old(endpoints)[endpoint].business == business
      ensures !found ==> endpoints == old(endpoints) && rows == old(rows)
      ensures found ==>
                && endpoints == old(endpoints)[endpoint := Endpoint(business,
                     if old(endpoints)[endpoint].disabledAt.Some? then old(endpoints)[endpoint].disabledAt else Some(now))]
                && rows.Keys == old(rows).Keys
                && (forall d :: d in rows ==>
                      rows[d] == if d.endpoint == endpoint && old(rows)[d].status == Pending
                                 then old(rows)[d].(status := Cancelled) else old(rows)[d])
                && (forall d :: d in rows && d.endpoint == endpoint ==> rows[d].status != Pending)
    {
      found := endpoint in endpoints && endpoints[endpoint].business == business;
      if found {
        var disabledAt := if endpoints[endpoint].disabledAt.Some? then endpoints[endpoint].disabledAt else Some(now);
        endpoints := endpoints[endpoint := Endpoint(business, disabledAt)];
        rows := map d | d in rows ::
          if d.endpoint == endpoint && rows[d].status == Pending then rows[d].(status := Cancelled) else rows[d];
      }
    }
  }

  // ----- Error texts

  /** The longest run of whole characters, from the start, whose encoding fits in 500 bytes. */
  ghost predicate LongestThatFits(text: string, kept: seq<Byte>) {
    exists m :: 0 <= m <= |text| && kept == Encode(text[..m]) && |kept| <= 500
                && (m < |text| ==> |Encode(text[..m + 1])| > 500)
  }

  lemma CutFits(text: string, kept: seq<Byte>)
    requires kept <= Encode(text) && |kept| <= MAX_ERROR_LEN && CharBoundary(Encode(text), |kept|)
    requires forall index: nat :: |kept| < index <= |Encode(text)| && index <= MAX_ERROR_LEN ==> !CharBoundary(Encode(text), index)
    ensures LongestThatFits(text, kept)
  {
    var m := BoundaryEndsCharacters(text, |kept|);
    EncodePrefix(text, m);
    hide Encode, CharBoundary;
    assert kept == Encode(text[..m]);
    if m < |text| {
      CharactersEndAtBoundaries(text, m + 1);
      EncodeGrows(text, m);
    }
  }

  /** Cuts an error text, given as its bytes, back to a character boundary within the limit. */
  method Truncate(bytes: seq<Byte>) returns (kept: seq<Byte>)
    ensures kept <= bytes && |kept| <= MAX_ERROR_LEN && CharBoundary(bytes, |kept|)
    ensures forall index: nat :: |kept| < index <= |bytes| && index <= MAX_ERROR_LEN ==> !CharBoundary(bytes, index)
    ensures forall text :: bytes == Encode(text) ==> LongestThatFits(text, kept)
  {
    if |bytes| <= MAX_ERROR_LEN {
      kept := bytes;
    } else {
      var cut: nat := MAX_ERROR_LEN;
      while !CharBoundary(bytes, cut)
        invariant cut <= MAX_ERROR_LEN
        invariant forall index: nat :: cut < index <= MAX_ERROR_LEN ==> !CharBoundary(bytes, index)
        decreases cut
      {
        cut := cut - 1;
      }
      kept := bytes[..cut];
    }
    forall text | bytes == Encode(text) ensures LongestThatFits(text, kept) {
      CutFits(text, kept);
    }
  }
}
