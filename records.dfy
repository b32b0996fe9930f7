/** The rows of the store (the record classes under app/models and app/db/station.py), as values,
    and the duration rule every aggregate shares: an event contributes
    `salida - entrada` only when both timestamps are present. */
module Records {
  import opened Common

  /** Seconds since the epoch, UTC. */
  type Timestamp = int
  /** Days since the epoch: the calendar date of a timestamp in UTC. */
  type Day = int

  const SecondsPerDay: int := 86400

  /** SQL `date(t)`; Dafny's `/` floors for a positive divisor. */
  function DayOf(t: Timestamp): Day {
    t / SecondsPerDay
  }

  /** Midnight at the start of a day: what a `date` becomes when SQL
      compares it with a timestamp. */
  function MidnightOf(d: Day): Timestamp {
    d * SecondsPerDay
  }

  datatype Part = Part(
    id: int,
    serial: string,
    tipoPieza: string,
    lote: Option<string>,         // nullable column; a PATCH may clear it
    status: string,               // EN_PROCESO, OK, SCRAP, RETRABAJO
    fechaCreacion: Timestamp)

  datatype Station = Station(
    id: int,
    nombre: string,
    tipo: string,
    linea: Option<string>)

  datatype TraceEvent = TraceEvent(
    id: int,
    partId: int,
    stationId: int,
    operadorId: Option<int>,
    timestampEntrada: Option<Timestamp>,
    timestampSalida: Option<Timestamp>,
    resultado: string,            // OK, SCRAP, RETRABAJO
    observaciones: Option<string>)

  datatype User = User(
    id: int,
    nombre: string,
    email: string,
    rol: string,
    activo: bool)

  /** `Part.id == part_id` on a table snapshot. */
  predicate HasPart(parts: seq<Part>, id: int) {
    exists i :: 0 <= i < |parts| && parts[i].id == id
  }

  predicate HasStation(stations: seq<Station>, id: int) {
    exists i :: 0 <= i < |stations| && stations[i].id == id
  }

  /** An event with both timestamps present. */
  predicate Closed(e: TraceEvent) {
    e.timestampEntrada.Some? && e.timestampSalida.Some?
  }

  function Duration(e: TraceEvent): int
    requires Closed(e)
  {
    e.timestampSalida.value - e.timestampEntrada.value
  }

  /** The events of one part (`TraceEvent.part_id == part_id`), in store order. */
  function EventsOf(events: seq<TraceEvent>, partId: int): (r: seq<TraceEvent>)
    ensures |r| <= |events|
  {
    if events == [] then []
    else (if events[0].partId == partId then [events[0]] else []) + EventsOf(events[1..], partId)
  }

  lemma {:induction false} EventsOfMember(events: seq<TraceEvent>, partId: int, e: TraceEvent)
    ensures e in EventsOf(events, partId) <==> e in events && e.partId == partId
  {
    if events != [] {
      EventsOfMember(events[1..], partId, e);
      assert e in events <==> e == events[0] || e in events[1..];
    }
  }

  /** Sum of the durations of the closed events; open events add nothing. */
  function ClosedTotal(events: seq<TraceEvent>): int {
    if events == [] then 0
    else (if Closed(events[0]) then Duration(events[0]) else 0) + ClosedTotal(events[1..])
  }

  /** Number of closed events. */
  function ClosedCount(events: seq<TraceEvent>): (n: nat)
    ensures n <= |events|
    ensures n > 0 <==> exists e :: e in events && Closed(e)
  {
    if events == [] then 0
    else (if Closed(events[0]) then 1 else 0) + ClosedCount(events[1..])
  }

  lemma {:induction false} ClosedTotalAppend(events: seq<TraceEvent>, e: TraceEvent)
    ensures ClosedTotal(events + [e]) == ClosedTotal(events) + (if Closed(e) then Duration(e) else 0)
    ensures ClosedCount(events + [e]) == ClosedCount(events) + (if Closed(e) then 1 else 0)
  {
    if events != [] {
      assert (events + [e])[1..] == events[1..] + [e];
      ClosedTotalAppend(events[1..], e);
    } else {
      assert [e][1..] == [];
    }
  }

  /** The intended invariant on stored events: a present exit is not before
      its entry. The store does not enforce it, since the entry time comes
      from the server and the exit time from the client. */
  predicate WellFormed(events: seq<TraceEvent>) {
    forall i :: 0 <= i < |events| && Closed(events[i]) ==> Duration(events[i]) >= 0
  }

  lemma {:induction false} ClosedTotalNonNegative(events: seq<TraceEvent>)
    requires WellFormed(events)
    ensures ClosedTotal(events) >= 0
  {
    if events != [] {
      assert WellFormed(events[1..]) by {
        forall i | 0 <= i < |events[1..]| && Closed(events[1..][i])
          ensures Duration(events[1..][i]) >= 0
        {
          assert events[1..][i] == events[i + 1];
        }
      }
      ClosedTotalNonNegative(events[1..]);
    }
  }

  /** `AVG(salida - entrada)` over a list of events: SQL's AVG skips the rows
      where the difference is NULL and is NULL when no row remains. */
  function MeanDuration(events: seq<TraceEvent>): (m: Option<real>)
    ensures m.Some? <==> ClosedCount(events) > 0
  {
    var n := ClosedCount(events);
    if n == 0 then None else Some(ClosedTotal(events) as real / n as real)
  }

  lemma MeanNonNegative(total: int, n: nat)
    requires total >= 0 && n > 0
    ensures total as real / n as real >= 0.0
  {
  }
}
