/** The trace-event endpoints of app/api/trace_events.py: recording an event
    against an existing part and station, and a part's history ordered by
    entry time. */
module TraceEvents {
  import opened Common
  import opened Records
  import Parts
  import Stations

  const NoEventsDetail: string := "No hay eventos para esa pieza."

  /** `TraceEventCreate`: the entry time is not sent, the store sets it. */
  datatype TraceEventCreate = TraceEventCreate(
    partId: int,
    stationId: int,
    operadorId: Option<int>,
    resultado: string,
    observaciones: Option<string>,
    timestampSalida: Option<Timestamp>)

  predicate IdsIncreasing(rows: seq<TraceEvent>) {
    forall i, j :: 0 <= i < j < |rows| ==> rows[i].id < rows[j].id
  }

  predicate IdsBelow(rows: seq<TraceEvent>, nextId: int) {
    forall i :: 0 <= i < |rows| ==> 1 <= rows[i].id < nextId
  }

  /** `ORDER BY timestamp_entrada ASC` with SQL's NULLS LAST: a missing
      entry time sorts after every present one. */
  predicate EntryLe(a: TraceEvent, b: TraceEvent) {
    b.timestampEntrada.None?
    || (a.timestampEntrada.Some? && a.timestampEntrada.value <= b.timestampEntrada.value)
  }

  predicate SortedByEntry(s: seq<TraceEvent>) {
    forall i, j :: 0 <= i < j < |s| ==> EntryLe(s[i], s[j])
  }

  /** Puts `e` into a history before the first event it may precede. */
  function Insert(e: TraceEvent, s: seq<TraceEvent>): (r: seq<TraceEvent>)
    ensures multiset(r) == multiset(s) + multiset{e}
  {
    if s == [] then [e]
    else if EntryLe(e, s[0]) then [e] + s
    else
      assert s == [s[0]] + s[1..];
      [s[0]] + Insert(e, s[1..])
  }

  /** An event that may precede every event of a sorted history may head it. */
  lemma ConsSorted(x: TraceEvent, t: seq<TraceEvent>)
    requires SortedByEntry(t)
    requires forall y :: y in t ==> EntryLe(x, y)
    ensures SortedByEntry([x] + t)
  {
    var u := [x] + t;
    forall i, j | 0 <= i < j < |u| ensures EntryLe(u[i], u[j]) {
      assert u[j] == t[j - 1];
      if i > 0 {
        assert u[i] == t[i - 1];
      }
    }
  }

  /** Inserting into a sorted history keeps it sorted. */
  lemma {:induction false} InsertSorted(e: TraceEvent, s: seq<TraceEvent>)
    requires SortedByEntry(s)
    ensures SortedByEntry(Insert(e, s))
  {
    if s == [] {
    } else if EntryLe(e, s[0]) {
      forall y | y in s ensures EntryLe(e, y) {
        var k :| 0 <= k < |s| && s[k] == y;
        if k > 0 {
          assert EntryLe(s[0], s[k]);
        }
      }
      ConsSorted(e, s);
    } else {
      var tail := s[1..];
      assert SortedByEntry(tail) by {
        forall i, j | 0 <= i < j < |tail| ensures EntryLe(tail[i], tail[j]) {
          assert tail[i] == s[i + 1] && tail[j] == s[j + 1];
        }
      }
      InsertSorted(e, tail);
      var rest := Insert(e, tail);
      forall y | y in rest ensures EntryLe(s[0], y) {
        assert y in multiset(rest);
        if y != e {
          var k :| 0 <= k < |tail| && tail[k] == y;
          assert s[k + 1] == y;
        }
      }
      ConsSorted(s[0], rest);
    }
  }

  /** The order the query returns; events with equal entry times may come in
      any order, so only sortedness and the permutation are promised. */
  function SortByEntry(s: seq<TraceEvent>): (r: seq<TraceEvent>)
    ensures multiset(r) == multiset(s)
    ensures SortedByEntry(r)
  {
    if s == [] then []
    else
      assert s == [s[0]] + s[1..];
      var rest := SortByEntry(s[1..]);
      InsertSorted(s[0], rest);
      Insert(s[0], rest)
  }

  /** `list_trace_events_for_part`: 404 when the part has no events (also
      when the part does not exist), otherwise its events by entry time. */
  function ListTraceEventsForPart(events: seq<TraceEvent>, partId: int): (r: Result<seq<TraceEvent>>)
    ensures r.Err? <==> EventsOf(events, partId) == []
    ensures r.Err? ==> r.error == NotFound(NoEventsDetail)
    ensures r.Ok? ==> SortedByEntry(r.value) && multiset(r.value) == multiset(EventsOf(events, partId))
  {
    var evs := EventsOf(events, partId);
    if evs == [] then Err(NotFound(NoEventsDetail)) else Ok(SortByEntry(evs))
  }

  /** The history lists exactly the part's events. */
  lemma ListedIffOfPart(events: seq<TraceEvent>, partId: int, e: TraceEvent)
    requires ListTraceEventsForPart(events, partId).Ok?
    ensures e in ListTraceEventsForPart(events, partId).value <==> e in events && e.partId == partId
  {
    var r := ListTraceEventsForPart(events, partId).value;
    EventsOfMember(events, partId, e);
    assert e in r <==> e in multiset(r);
  }

  /** A recorded event shows up in its part's history. */
  lemma RecordedEventListed(events: seq<TraceEvent>, e: TraceEvent)
    ensures ListTraceEventsForPart(events + [e], e.partId).Ok?
    ensures e in ListTraceEventsForPart(events + [e], e.partId).value
  {
    EventsOfMember(events + [e], e.partId, e);
    ListedIffOfPart(events + [e], e.partId, e);
  }

  class EventStore {
    var rows: seq<TraceEvent>
    var nextId: int

    ghost predicate Valid()
      reads this
    {
      nextId >= 1 && IdsIncreasing(rows) && IdsBelow(rows, nextId)
    }

    constructor ()
      ensures Valid() && rows == [] && nextId == 1
    {
      rows := [];
      nextId := 1;
    }

    /** `create_trace_event`: the part is looked up first, then the station;
        the entry time is the server's clock `now`. Parts and stations are
        read, never changed. */
    method CreateTraceEvent(input: TraceEventCreate, parts: Parts.PartTable,
                            stations: Stations.StationTable, now: Timestamp)
      returns (r: Result<TraceEvent>)
      requires Valid()
      modifies this
      ensures Valid()
      ensures parts.rows == old(parts.rows) && stations.rows == old(stations.rows)
      ensures !HasPart(parts.rows, input.partId) ==>
        r == Err(NotFound(Parts.PartNotFoundDetail)) && rows == old(rows) && nextId == old(nextId)
      ensures HasPart(parts.rows, input.partId) && !HasStation(stations.rows, input.stationId) ==>
        r == Err(NotFound(Stations.StationNotFoundDetail)) && rows == old(rows) && nextId == old(nextId)
      ensures HasPart(parts.rows, input.partId) && HasStation(stations.rows, input.stationId) ==>
        && r == Ok(TraceEvent(old(nextId), input.partId, input.stationId, input.operadorId,
                              Some(now), input.timestampSalida, input.resultado, input.observaciones))
        && rows == old(rows) + [r.value] && nextId == old(nextId) + 1
    {
      var part := Parts.Find(parts.rows, input.partId);
      if part.None? {
        return Err(NotFound(Parts.PartNotFoundDetail));
      }
      var station := Stations.Find(stations.rows, input.stationId);
      if station.None? {
        return Err(NotFound(Stations.StationNotFoundDetail));
      }
      var event := TraceEvent(nextId, input.partId, input.stationId, input.operadorId,
                              Some(now), input.timestampSalida, input.resultado, input.observaciones);
      rows := rows + [event];
      nextId := nextId + 1;
      r := Ok(event);
    }
  }
}
