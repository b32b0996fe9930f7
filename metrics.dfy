/** The supervisor dashboards of app/api/metrics.py over the part and event
    tables. Every endpoint sits behind `Roles.RequireSupervisorOrAdmin`;
    the functions here are what the endpoint returns once access is granted. */
module Metrics {
  import opened Common
  import opened Records
  import opened Tally

  // ---------------------------------------------------------------------
  // parts-by-status

  function Statuses(parts: seq<Part>): (r: seq<string>)
    ensures |r| == |parts|
    ensures forall i :: 0 <= i < |r| ==> r[i] == parts[i].status
  {
    seq(|parts|, i requires 0 <= i < |parts| => parts[i].status)
  }

  /** `parts_by_status`: each status that some part has, mapped to its
      number of parts. A status no part has is absent, not 0. */
  function PartsByStatus(parts: seq<Part>): (m: map<string, nat>)
    ensures forall s :: s in m <==> exists i :: 0 <= i < |parts| && parts[i].status == s
    ensures forall s :: s in m ==> m[s] == Count(Statuses(parts), s) && m[s] >= 1
  {
    GroupCount(Statuses(parts))
  }

  /** The counts account for every part exactly once. */
  lemma PartsByStatusTotal(parts: seq<Part>)
    ensures SumOver(PartsByStatus(parts), Dedup(Statuses(parts))) == |parts|
  {
    GroupCountTotal(Statuses(parts));
  }

  // ---------------------------------------------------------------------
  // throughput

  datatype DayCount = DayCount(fecha: Day, piezas: nat)

  const BadDateDetail := "Formato de fecha incorrecto. Usa YYYY-MM-DD."

  /** An event that left its station with result OK. */
  predicate ShippedOk(e: TraceEvent) {
    e.resultado == "OK" && e.timestampSalida.Some?
  }

  predicate ShippedOn(e: TraceEvent, d: Day) {
    ShippedOk(e) && DayOf(e.timestampSalida.value) == d
  }

  /** `COUNT(id)` of the date group `d`. */
  function OkOn(events: seq<TraceEvent>, d: Day): (n: nat)
    ensures n <= |events|
    ensures n > 0 <==> exists e :: e in events && ShippedOn(e, d)
  {
    if events == [] then 0
    else (if ShippedOn(events[0], d) then 1 else 0) + OkOn(events[1..], d)
  }

  /** Number of OK exits whose date lies in `[lo, hi]`. */
  function OkBetween(events: seq<TraceEvent>, lo: Day, hi: Day): nat {
    if events == [] then 0
    else
      var e := events[0];
      (if ShippedOk(e) && lo <= DayOf(e.timestampSalida.value) <= hi then 1 else 0)
        + OkBetween(events[1..], lo, hi)
  }

  /** Every row lies in `[lo, hi]` and carries its date's nonzero count. */
  predicate RowsSound(events: seq<TraceEvent>, rows: seq<DayCount>, lo: Day, hi: Day) {
    forall i :: 0 <= i < |rows| ==>
      lo <= rows[i].fecha <= hi && rows[i].piezas == OkOn(events, rows[i].fecha) && rows[i].piezas > 0
  }

  predicate Ascending(rows: seq<DayCount>) {
    forall i, j :: 0 <= i < j < |rows| ==> rows[i].fecha < rows[j].fecha
  }

  function Dates(rows: seq<DayCount>): (r: seq<Day>)
    ensures |r| == |rows|
    ensures forall i :: 0 <= i < |r| ==> r[i] == rows[i].fecha
  {
    seq(|rows|, i requires 0 <= i < |rows| => rows[i].fecha)
  }

  /** Every date in `[lo, hi]` with an OK exit has a row. */
  predicate RowsComplete(events: seq<TraceEvent>, rows: seq<DayCount>, lo: Day, hi: Day) {
    forall k :: lo <= k <= hi && OkOn(events, k) > 0 ==> k in Dates(rows)
  }

  /** The groups of the dates from `d` to `hi`, ascending; a date without
      an OK exit forms no group. */
  function DaysFrom(events: seq<TraceEvent>, d: Day, hi: Day): (r: seq<DayCount>)
    decreases hi - d
    ensures RowsSound(events, r, d, hi) && Ascending(r) && RowsComplete(events, r, d, hi)
  {
    if d > hi then []
    else
      var n := OkOn(events, d);
      var rest := DaysFrom(events, d + 1, hi);
      DaysFromStep(events, d, hi, rest);
      if n > 0 then [DayCount(d, n)] + rest else rest
  }

  lemma DaysFromStep(events: seq<TraceEvent>, d: Day, hi: Day, rest: seq<DayCount>)
    requires d <= hi
    requires RowsSound(events, rest, d + 1, hi) && Ascending(rest) && RowsComplete(events, rest, d + 1, hi)
    ensures OkOn(events, d) > 0 ==>
      var r := [DayCount(d, OkOn(events, d))] + rest;
      RowsSound(events, r, d, hi) && Ascending(r) && RowsComplete(events, r, d, hi)
    ensures OkOn(events, d) == 0 ==>
      RowsSound(events, rest, d, hi) && Ascending(rest) && RowsComplete(events, rest, d, hi)
  {
    if OkOn(events, d) > 0 {
      var row := DayCount(d, OkOn(events, d));
      ConsSound(events, d, hi, row, rest);
      ConsAscending(row, rest, d + 1);
      ConsComplete(events, d, hi, row, rest);
    } else {
      assert RowsSound(events, rest, d, hi);
    }
  }

  lemma ConsSound(events: seq<TraceEvent>, d: Day, hi: Day, row: DayCount, rest: seq<DayCount>)
    requires d <= hi && row == DayCount(d, OkOn(events, d)) && row.piezas > 0
    requires RowsSound(events, rest, d + 1, hi)
    ensures RowsSound(events, [row] + rest, d, hi)
  {
    var r := [row] + rest;
    forall i | 0 <= i < |r|
      ensures d <= r[i].fecha <= hi && r[i].piezas == OkOn(events, r[i].fecha) && r[i].piezas > 0
    {
      if i > 0 { assert r[i] == rest[i - 1]; }
    }
  }

  lemma ConsAscending(row: DayCount, rest: seq<DayCount>, lo: Day)
    requires Ascending(rest) && row.fecha < lo
    requires forall i :: 0 <= i < |rest| ==> lo <= rest[i].fecha
    ensures Ascending([row] + rest)
  {
    var r := [row] + rest;
    forall i, j | 0 <= i < j < |r| ensures r[i].fecha < r[j].fecha {
      assert r[j] == rest[j - 1];
      if i > 0 { assert r[i] == rest[i - 1]; }
    }
  }

  lemma ConsComplete(events: seq<TraceEvent>, d: Day, hi: Day, row: DayCount, rest: seq<DayCount>)
    requires row.fecha == d
    requires RowsComplete(events, rest, d + 1, hi)
    ensures RowsComplete(events, [row] + rest, d, hi)
  {
    assert Dates([row] + rest) == [d] + Dates(rest);
  }


  /** `throughput`: OK exits per date between the two dates, inclusive and
      ascending. `None` stands for a date string that does not parse as
      YYYY-MM-DD; either one failing gives the same 400 error. */
  function Throughput(events: seq<TraceEvent>, from: Option<Day>, to: Option<Day>): (r: Result<seq<DayCount>>)
    ensures r.Err? <==> from.None? || to.None?
    ensures r.Err? ==> r.error == Validation(BadDateDetail)
    ensures r.Ok? ==> RowsSound(events, r.value, from.value, to.value)
    ensures r.Ok? ==> Ascending(r.value)
    ensures r.Ok? ==> RowsComplete(events, r.value, from.value, to.value)
  {
    if from.None? || to.None? then Err(Validation(BadDateDetail))
    else Ok(DaysFrom(events, from.value, to.value))
  }

  function TotalPiezas(rows: seq<DayCount>): nat {
    if rows == [] then 0 else rows[0].piezas + TotalPiezas(rows[1..])
  }

  lemma {:induction false} OkBetweenEmpty(events: seq<TraceEvent>, lo: Day, hi: Day)
    requires lo > hi
    ensures OkBetween(events, lo, hi) == 0
  {
    if events != [] { OkBetweenEmpty(events[1..], lo, hi); }
  }

  lemma {:induction false} OkBetweenSplit(events: seq<TraceEvent>, lo: Day, hi: Day)
    requires lo <= hi
    ensures OkBetween(events, lo, hi) == OkOn(events, lo) + OkBetween(events, lo + 1, hi)
  {
    if events != [] { OkBetweenSplit(events[1..], lo, hi); }
  }

  lemma {:induction false} DaysFromTotal(events: seq<TraceEvent>, d: Day, hi: Day)
    decreases hi - d
    ensures TotalPiezas(DaysFrom(events, d, hi)) == OkBetween(events, d, hi)
  {
    if d > hi {
      OkBetweenEmpty(events, d, hi);
    } else {
      DaysFromTotal(events, d + 1, hi);
      OkBetweenSplit(events, d, hi);
      var rest := DaysFrom(events, d + 1, hi);
      if OkOn(events, d) > 0 {
        assert ([DayCount(d, OkOn(events, d))] + rest)[1..] == rest;
      }
    }
  }

  /** Every OK exit dated within the range is counted in exactly one row. */
  lemma ThroughputTotal(events: seq<TraceEvent>, lo: Day, hi: Day)
    ensures Throughput(events, Some(lo), Some(hi)).Ok?
    ensures TotalPiezas(Throughput(events, Some(lo), Some(hi)).value) == OkBetween(events, lo, hi)
  {
    DaysFromTotal(events, lo, hi);
  }

  // ---------------------------------------------------------------------
  // station-cycle-time

  datatype StationCycle = StationCycle(stationId: int, tiempoPromedioSegundos: real)

  /** The rows that survive `salida IS NOT NULL AND entrada IS NOT NULL`. */
  function ClosedEvents(events: seq<TraceEvent>): seq<TraceEvent> {
    if events == [] then []
    else (if Closed(events[0]) then [events[0]] else []) + ClosedEvents(events[1..])
  }

  lemma {:induction false} ClosedEventsMember(events: seq<TraceEvent>, e: TraceEvent)
    ensures e in ClosedEvents(events) <==> e in events && Closed(e)
  {
    if events != [] {
      ClosedEventsMember(events[1..], e);
      assert e in events <==> e == events[0] || e in events[1..];
    }
  }

  /** The events recorded at one station, in store order. */
  function AtStation(events: seq<TraceEvent>, stationId: int): seq<TraceEvent> {
    if events == [] then []
    else (if events[0].stationId == stationId then [events[0]] else []) + AtStation(events[1..], stationId)
  }

  lemma {:induction false} AtStationMember(events: seq<TraceEvent>, sid: int, e: TraceEvent)
    ensures e in AtStation(events, sid) <==> e in events && e.stationId == sid
  {
    if events != [] {
      AtStationMember(events[1..], sid, e);
      assert e in events <==> e == events[0] || e in events[1..];
    }
  }

  function StationIdsOf(events: seq<TraceEvent>): (r: seq<int>)
    ensures |r| == |events|
    ensures forall k :: 0 <= k < |r| ==> r[k] == events[k].stationId
  {
    seq(|events|, k requires 0 <= k < |events| => events[k].stationId)
  }

  function CycleStationIds(rows: seq<StationCycle>): (r: seq<int>)
    ensures |r| == |rows|
    ensures forall k :: 0 <= k < |r| ==> r[k] == rows[k].stationId
  {
    seq(|rows|, k requires 0 <= k < |rows| => rows[k].stationId)
  }

  /** One row per station of `ids`, each with the mean of its closed events. */
  function CycleRows(events: seq<TraceEvent>, ids: seq<int>): (r: seq<StationCycle>)
    requires forall sid :: sid in ids ==> ClosedCount(AtStation(events, sid)) > 0
    ensures |r| == |ids|
    ensures forall i :: 0 <= i < |r| ==> r[i].stationId == ids[i]
    ensures forall i :: 0 <= i < |r| ==>
      MeanDuration(AtStation(events, r[i].stationId)) == Some(r[i].tiempoPromedioSegundos)
  {
    if ids == [] then []
    else [StationCycle(ids[0], MeanDuration(AtStation(events, ids[0])).value)] + CycleRows(events, ids[1..])
  }


  /** `station_cycle_time`: for every station with at least one closed
      event, the mean of `salida - entrada` over its closed events. A
      station whose events are all open forms no group. */
  function StationCycleTime(events: seq<TraceEvent>): (r: seq<StationCycle>)
    ensures forall i :: 0 <= i < |r| ==>
      MeanDuration(AtStation(events, r[i].stationId)) == Some(r[i].tiempoPromedioSegundos)
    ensures forall e :: e in events && Closed(e) ==> e.stationId in CycleStationIds(r)
    ensures NoDuplicates(CycleStationIds(r))
  {
    var closed := ClosedEvents(events);
    var ids := Dedup(StationIdsOf(closed));
    forall sid | sid in ids ensures ClosedCount(AtStation(events, sid)) > 0 {
      StationOfClosedHasMean(events, sid);
    }
    forall e | e in events && Closed(e) ensures e.stationId in ids {
      ClosedEventsMember(events, e);
      var k :| 0 <= k < |closed| && closed[k] == e;
      assert StationIdsOf(closed)[k] == e.stationId;
    }
    assert CycleStationIds(CycleRows(events, ids)) == ids;
    CycleRows(events, ids)
  }

  /** A station listed among the closed events has a closed event of its own. */
  lemma StationOfClosedHasMean(events: seq<TraceEvent>, sid: int)
    requires sid in StationIdsOf(ClosedEvents(events))
    ensures ClosedCount(AtStation(events, sid)) > 0
  {
    var closed := ClosedEvents(events);
    var k :| 0 <= k < |closed| && StationIdsOf(closed)[k] == sid;
    ClosedEventsMember(events, closed[k]);
    AtStationMember(events, sid, closed[k]);
  }

  lemma {:induction false} ClosedEventsAppendOpen(events: seq<TraceEvent>, e: TraceEvent)
    requires !Closed(e)
    ensures ClosedEvents(events + [e]) == ClosedEvents(events)
  {
    if events == [] {
      assert [e][1..] == [];
    } else {
      assert (events + [e])[1..] == events[1..] + [e];
      ClosedEventsAppendOpen(events[1..], e);
    }
  }

  lemma {:induction false} AtStationAppend(events: seq<TraceEvent>, e: TraceEvent, sid: int)
    ensures AtStation(events + [e], sid) == AtStation(events, sid) + (if e.stationId == sid then [e] else [])
  {
    if events == [] {
      assert [e][1..] == [];
    } else {
      assert (events + [e])[1..] == events[1..] + [e];
      AtStationAppend(events[1..], e, sid);
    }
  }

  lemma {:induction false} CycleRowsIgnoreOpen(events: seq<TraceEvent>, e: TraceEvent, ids: seq<int>)
    requires !Closed(e)
    requires forall sid :: sid in ids ==> ClosedCount(AtStation(events, sid)) > 0
    requires forall sid :: sid in ids ==> ClosedCount(AtStation(events + [e], sid)) > 0
    ensures CycleRows(events + [e], ids) == CycleRows(events, ids)
  {
    if ids != [] {
      MeanIgnoresOpen(events, e, ids[0]);
      CycleRowsIgnoreOpen(events, e, ids[1..]);
    }
  }

  lemma MeanIgnoresOpen(events: seq<TraceEvent>, e: TraceEvent, sid: int)
    requires !Closed(e)
    ensures MeanDuration(AtStation(events + [e], sid)) == MeanDuration(AtStation(events, sid))
  {
    AtStationAppend(events, e, sid);
    var at := AtStation(events, sid);
    if e.stationId == sid {
      ClosedTotalAppend(at, e);
    } else {
      assert at + [] == at;
    }
  }

  /** Recording an event that has not left its station yet changes no
      cycle time. */
  lemma StationCycleIgnoresOpenEvents(events: seq<TraceEvent>, e: TraceEvent)
    requires !Closed(e)
    ensures StationCycleTime(events + [e]) == StationCycleTime(events)
  {
    ClosedEventsAppendOpen(events, e);
    var ids := Dedup(StationIdsOf(ClosedEvents(events)));
    forall sid | sid in ids
      ensures ClosedCount(AtStation(events, sid)) > 0 && ClosedCount(AtStation(events + [e], sid)) > 0
    {
      StationOfClosedHasMean(events, sid);
      StationOfClosedHasMean(events + [e], sid);
    }
    CycleRowsIgnoreOpen(events, e, ids);
  }

  // ---------------------------------------------------------------------
  // scrap-rate

  datatype ScrapRateRow = ScrapRateRow(tipoPieza: string, scrapRate: real)

  function Tipos(parts: seq<Part>): (r: seq<string>)
    ensures |r| == |parts|
    ensures forall i :: 0 <= i < |r| ==> r[i] == parts[i].tipoPieza
  {
    seq(|parts|, i requires 0 <= i < |parts| => parts[i].tipoPieza)
  }

  /** The types of the parts whose status is SCRAP, one entry per part. */
  function ScrapTipos(parts: seq<Part>): (r: seq<string>)
    ensures |r| <= |parts|
  {
    if parts == [] then []
    else
      var rest := ScrapTipos(parts[1..]);
      if parts[0].status == "SCRAP" then [parts[0].tipoPieza] + rest else rest
  }

  lemma {:induction false} ScrapTiposMember(parts: seq<Part>, tipo: string)
    ensures tipo in ScrapTipos(parts) <==> exists p :: p in parts && p.tipoPieza == tipo && p.status == "SCRAP"
  {
    if parts != [] {
      ScrapTiposMember(parts[1..], tipo);
      assert forall p :: p in parts <==> p == parts[0] || p in parts[1..];
    }
  }

  /** `float(scrap) / float(total) if total > 0 else 0.0`. */
  function Rate(scrap: nat, total: nat): (r: real)
    ensures total == 0 ==> r == 0.0
    ensures total > 0 ==> r * total as real == scrap as real
  {
    if total > 0 then scrap as real / total as real else 0.0
  }

  /** The reference result: one row per part type, in the order of the
      grouped totals, with scrap parts over all parts of that type. */
  function ScrapRates(parts: seq<Part>): (r: seq<ScrapRateRow>)
    ensures |r| == |Dedup(Tipos(parts))|
    ensures forall i :: 0 <= i < |r| ==> r[i].tipoPieza == Dedup(Tipos(parts))[i]
  {
    var tipos := Dedup(Tipos(parts));
    seq(|tipos|, i requires 0 <= i < |tipos| => RateRow(parts, tipos[i]))
  }

  /** The row of one type: its SCRAP parts over all its parts. */
  function RateRow(parts: seq<Part>, tipo: string): ScrapRateRow {
    ScrapRateRow(tipo, Rate(Count(ScrapTipos(parts), tipo), Count(Tipos(parts), tipo)))
  }

  /** The rows name exactly the part types present. */
  lemma ScrapRatesTypes(parts: seq<Part>, tipo: string)
    ensures (exists i :: 0 <= i < |ScrapRates(parts)| && ScrapRates(parts)[i].tipoPieza == tipo)
      <==> exists p :: p in parts && p.tipoPieza == tipo
  {
    var r, tipos := ScrapRates(parts), Dedup(Tipos(parts));
    assert |r| == |tipos|;
    assert tipo in tipos <==> tipo in Tipos(parts);
    if p :| p in parts && p.tipoPieza == tipo {
      var k :| 0 <= k < |parts| && parts[k] == p;
      assert Tipos(parts)[k] == tipo;
      var i :| 0 <= i < |tipos| && tipos[i] == tipo;
      assert r[i].tipoPieza == tipo;
    }
    if i :| 0 <= i < |r| && r[i].tipoPieza == tipo {
      assert tipos[i] == tipo;
      var k :| 0 <= k < |Tipos(parts)| && Tipos(parts)[k] == tipo;
      assert parts[k].tipoPieza == tipo;
    }
  }

  /** No part type has two rows. */
  lemma ScrapRatesDistinct(parts: seq<Part>)
    ensures forall i, j :: 0 <= i < j < |ScrapRates(parts)| ==> ScrapRates(parts)[i].tipoPieza != ScrapRates(parts)[j].tipoPieza
  {
    var r, tipos := ScrapRates(parts), Dedup(Tipos(parts));
    assert NoDuplicates(tipos);
    forall i, j | 0 <= i < j < |r| ensures r[i].tipoPieza != r[j].tipoPieza {
      assert r[i].tipoPieza == tipos[i] && r[j].tipoPieza == tipos[j];
    }
  }

  /** `scrap_rate`: the two grouped counts, then the loop over the totals,
      reading 0 for a type that has no SCRAP group. */
  method ScrapRate(parts: seq<Part>) returns (result: seq<ScrapRateRow>)
    ensures result == ScrapRates(parts)
    ensures forall i :: 0 <= i < |result| ==> 0.0 <= result[i].scrapRate <= 1.0
  {
    var totalDict := GroupCount(Tipos(parts));
    var scrapDict := GroupCount(ScrapTipos(parts));
    var tipos := Dedup(Tipos(parts));
    result := [];
    for k := 0 to |tipos|
      invariant result == ScrapRates(parts)[..k]
    {
      var tipo := tipos[k];
      var total := totalDict[tipo];
      var scrap := if tipo in scrapDict then scrapDict[tipo] else 0;
      var rate := if total > 0 then scrap as real / total as real else 0.0;
      DictLookups(parts, tipo);
      LoopRow(parts, k, tipo, total, scrap, rate);
      result := result + [ScrapRateRow(tipo, rate)];
    }
    assert result == ScrapRates(parts);
    ScrapRatesBounded(parts);
  }


  /** What the loop reads from the two dictionaries for a listed type. */
  lemma DictLookups(parts: seq<Part>, tipo: string)
    requires tipo in Tipos(parts)
    ensures GroupCount(Tipos(parts))[tipo] == Count(Tipos(parts), tipo)
    ensures (if tipo in GroupCount(ScrapTipos(parts)) then GroupCount(ScrapTipos(parts))[tipo] else 0)
      == Count(ScrapTipos(parts), tipo)
  {
  }

  lemma LoopRow(parts: seq<Part>, k: int, tipo: string, total: nat, scrap: nat, rate: real)
    requires 0 <= k < |Dedup(Tipos(parts))| && tipo == Dedup(Tipos(parts))[k]
    requires total == Count(Tipos(parts), tipo)
    requires scrap == Count(ScrapTipos(parts), tipo)
    requires rate == if total > 0 then scrap as real / total as real else 0.0
    ensures ScrapRates(parts)[..k + 1] == ScrapRates(parts)[..k] + [ScrapRateRow(tipo, rate)]
  {
    RowRate(parts, tipo, total, scrap, rate);
    var r := ScrapRates(parts);
    assert r[k] == RateRow(parts, tipo);
    assert r[..k + 1] == r[..k] + [r[k]];
  }

  lemma RowRate(parts: seq<Part>, tipo: string, total: nat, scrap: nat, rate: real)
    requires total == Count(Tipos(parts), tipo)
    requires scrap == Count(ScrapTipos(parts), tipo)
    requires rate == if total > 0 then scrap as real / total as real else 0.0
    ensures RateRow(parts, tipo) == ScrapRateRow(tipo, rate)
  {
  }


  lemma RateBounds(scrap: nat, total: nat)
    requires scrap <= total
    ensures 0.0 <= Rate(scrap, total) <= 1.0
  {
    if total > 0 {
      assert scrap as real / total as real * total as real == scrap as real;
    }
  }

  /** Unfolding `Count` over the two groupings by one part. */
  lemma CountsCons(parts: seq<Part>, tipo: string)
    requires parts != []
    ensures Count(Tipos(parts), tipo)
      == (if parts[0].tipoPieza == tipo then 1 else 0) + Count(Tipos(parts[1..]), tipo)
    ensures Count(ScrapTipos(parts), tipo)
      == (if parts[0].tipoPieza == tipo && parts[0].status == "SCRAP" then 1 else 0)
         + Count(ScrapTipos(parts[1..]), tipo)
  {
    assert Tipos(parts)[1..] == Tipos(parts[1..]);
    var rest := ScrapTipos(parts[1..]);
    if parts[0].status == "SCRAP" {
      assert ([parts[0].tipoPieza] + rest)[1..] == rest;
    }
  }

  /** A type's SCRAP parts are among its parts. */
  lemma {:induction false} ScrapNotAboveTotal(parts: seq<Part>, tipo: string)
    ensures Count(ScrapTipos(parts), tipo) <= Count(Tipos(parts), tipo)
  {
    if parts != [] {
      ScrapNotAboveTotal(parts[1..], tipo);
      CountsCons(parts, tipo);
    }
  }

  /** Every scrap rate lies between 0 and 1. */
  lemma ScrapRatesBounded(parts: seq<Part>)
    ensures forall i :: 0 <= i < |ScrapRates(parts)| ==> 0.0 <= ScrapRates(parts)[i].scrapRate <= 1.0
  {
    var tipos := Dedup(Tipos(parts));
    forall i | 0 <= i < |tipos| ensures 0.0 <= ScrapRates(parts)[i].scrapRate <= 1.0 {
      ScrapNotAboveTotal(parts, tipos[i]);
      RateBounds(Count(ScrapTipos(parts), tipos[i]), Count(Tipos(parts), tipos[i]));
    }
  }

  /** The same count in both groups means every part of the type is SCRAP. */
  lemma {:induction false} AllScrapIff(parts: seq<Part>, tipo: string)
    ensures Count(ScrapTipos(parts), tipo) == Count(Tipos(parts), tipo)
      <==> forall p :: p in parts && p.tipoPieza == tipo ==> p.status == "SCRAP"
  {
    if parts != [] {
      AllScrapIff(parts[1..], tipo);
      ScrapNotAboveTotal(parts[1..], tipo);
      CountsCons(parts, tipo);
      assert forall p :: p in parts <==> p == parts[0] || p in parts[1..];
    }
  }

  /** A listed type has rate 1 exactly when all its parts are SCRAP, and
      rate 0 exactly when none is. */
  lemma ScrapRateExtremes(parts: seq<Part>, i: int)
    requires 0 <= i < |ScrapRates(parts)|
    ensures ScrapRates(parts)[i].scrapRate == 1.0 <==>
      forall p :: p in parts && p.tipoPieza == ScrapRates(parts)[i].tipoPieza ==> p.status == "SCRAP"
    ensures ScrapRates(parts)[i].scrapRate == 0.0 <==>
      forall p :: p in parts && p.tipoPieza == ScrapRates(parts)[i].tipoPieza ==> p.status != "SCRAP"
  {
    var tipo := Dedup(Tipos(parts))[i];
    var scrap := Count(ScrapTipos(parts), tipo);
    var total := Count(Tipos(parts), tipo);
    assert ScrapRates(parts)[i] == ScrapRateRow(tipo, Rate(scrap, total));
    assert total > 0;
    ScrapNotAboveTotal(parts, tipo);
    RateExtremes(scrap, total);
    AllScrapIff(parts, tipo);
    NoScrapIff(parts, tipo);
  }

  lemma RateExtremes(scrap: nat, total: nat)
    requires 0 < total && scrap <= total
    ensures Rate(scrap, total) == 1.0 <==> scrap == total
    ensures Rate(scrap, total) == 0.0 <==> scrap == 0
  {
    var q := scrap as real / total as real;
    assert q * total as real == scrap as real;
  }

  lemma NoScrapIff(parts: seq<Part>, tipo: string)
    ensures Count(ScrapTipos(parts), tipo) == 0 <==>
      forall p :: p in parts && p.tipoPieza == tipo ==> p.status != "SCRAP"
  {
    ScrapTiposMember(parts, tipo);
  }

}
