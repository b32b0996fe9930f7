/** The rule-based risk scoring of app/api/ai.py: the manual evaluator
    (`risk_score`), the per-part scorer over stored trace events
    (`risk_score_part`) and the anomaly report (`anomalies`).

    Scores are integer tenths (4 stands for 0.4, the clamp 1.0 is 10, the
    level thresholds 0.7 and 0.4 are 7 and 4). Every float sum the source
    can reach compares with those thresholds as its tenths count does. */
module Ai {
  import opened Common
  import opened Text
  import opened Records
  import opened Tally

  type Tenths = int

  const MaxScore: Tenths := 10
  const AltoThreshold: Tenths := 7
  const MedioThreshold: Tenths := 4

  /** `min(score, 1.0)`: the smaller of the score and the cap. */
  function Clamp(score: Tenths): (r: Tenths)
    ensures r <= score && r <= MaxScore
    ensures r == score || r == MaxScore
  {
    if score < MaxScore then score else MaxScore
  }

  /** The total-time rule both scorers share: above 900 s adds 0.4, above
      600 s adds 0.2. */
  function TimeWeight(totalSeconds: int): Tenths {
    if totalSeconds > 900 then 4 else if totalSeconds > 600 then 2 else 0
  }

  // ------------------------------------------------------------------
  // Manual evaluator

  datatype RiskInput = RiskInput(
    partId: int,
    numRetrabajos: int,
    tiempoTotalSegundos: int,
    estacionActual: string,
    tipoPieza: string)

  datatype RiskOutput = RiskOutput(riesgoFalla: Tenths, nivel: string, explicacion: string)

  const NegativeTimeDetail: string := "El tiempo total no puede ser negativo."
  const NegativeReworkDetail: string := "El número de retrabajos no puede ser negativo."

  const ManualTimeHigh: string := "Tiempo total muy superior al promedio esperado."
  const ManualTimeAbove: string := "Tiempo total algo superior al promedio."
  const ManualReworkMany: string := "Tiene múltiples retrabajos."
  const ManualReworkOne: string := "Tiene un retrabajo registrado."
  const ManualInspection: string := "Se encuentra en inspección final."
  const ManualFallback: string := "Riesgo bajo según reglas actuales."

  /** The rework rule of the manual evaluator: two or more add 0.4, exactly
      one adds 0.2. */
  function ManualReworkWeight(numRetrabajos: int): Tenths {
    if numRetrabajos >= 2 then 4 else if numRetrabajos == 1 then 2 else 0
  }

  /** `estacion_actual.upper().startswith("INSPECCION")` */
  predicate AtInspection(station: string) {
    "INSPECCION" <= Upper(station)
  }

  function StationWeight(station: string): Tenths {
    if AtInspection(station) then 1 else 0
  }

  /** The manual score: one tier per category, categories added, clamped. */
  function ManualScore(data: RiskInput): Tenths {
    Clamp(TimeWeight(data.tiempoTotalSegundos) + ManualReworkWeight(data.numRetrabajos)
          + StationWeight(data.estacionActual))
  }

  /** The risk level of a score; both thresholds are inclusive. */
  function Level(score: Tenths): (r: string)
    ensures r == "ALTO" <==> score >= AltoThreshold
    ensures r == "MEDIO" <==> MedioThreshold <= score < AltoThreshold
    ensures r == "BAJO" <==> score < MedioThreshold
  {
    if score >= AltoThreshold then "ALTO" else if score >= MedioThreshold then "MEDIO" else "BAJO"
  }

  /** The fragments of the explanation: one per rule that fired, in the
      order time, rework, station. */
  function ManualReasons(data: RiskInput): seq<string> {
    (if data.tiempoTotalSegundos > 900 then [ManualTimeHigh]
     else if data.tiempoTotalSegundos > 600 then [ManualTimeAbove] else [])
    + (if data.numRetrabajos >= 2 then [ManualReworkMany]
       else if data.numRetrabajos == 1 then [ManualReworkOne] else [])
    + (if AtInspection(data.estacionActual) then [ManualInspection] else [])
  }

  /** `" ".join(explicaciones) or "Riesgo bajo según reglas actuales."` */
  function Explanation(fragments: seq<string>): (r: string)
    ensures r != ""
    ensures fragments == [] ==> r == ManualFallback
    ensures (exists k :: 0 <= k < |fragments| && fragments[k] != "") ==> r == Join(fragments, " ")
  {
    var joined := Join(fragments, " ");
    if joined == "" then ManualFallback else joined
  }

  /** `risk_score` */
  method RiskScore(data: RiskInput) returns (r: Result<RiskOutput>)
    ensures data.tiempoTotalSegundos < 0 ==> r == Err(Validation(NegativeTimeDetail))
    ensures data.tiempoTotalSegundos >= 0 && data.numRetrabajos < 0 ==> r == Err(Validation(NegativeReworkDetail))
    ensures r.Ok? <==> data.tiempoTotalSegundos >= 0 && data.numRetrabajos >= 0
    ensures r.Ok? ==> r.value.riesgoFalla == ManualScore(data)
    ensures r.Ok? ==> 0 <= r.value.riesgoFalla <= MaxScore
    ensures r.Ok? ==> (r.value.nivel == "ALTO" <==> r.value.riesgoFalla >= AltoThreshold)
    ensures r.Ok? ==> (r.value.nivel == "MEDIO" <==> MedioThreshold <= r.value.riesgoFalla < AltoThreshold)
    ensures r.Ok? ==> (r.value.nivel == "BAJO" <==> r.value.riesgoFalla < MedioThreshold)
    ensures r.Ok? ==> r.value.explicacion == Explanation(ManualReasons(data))
    ensures r.Ok? ==> r.value.explicacion != ""
  {
    if data.tiempoTotalSegundos < 0 {
      return Err(Validation(NegativeTimeDetail));
    }
    if data.numRetrabajos < 0 {
      return Err(Validation(NegativeReworkDetail));
    }

    var score: Tenths := 0;
    var explicaciones: seq<string> := [];

    if data.tiempoTotalSegundos > 900 {
      score := score + 4;
      explicaciones := explicaciones + [ManualTimeHigh];
    } else if data.tiempoTotalSegundos > 600 {
      score := score + 2;
      explicaciones := explicaciones + [ManualTimeAbove];
    }

    if data.numRetrabajos >= 2 {
      score := score + 4;
      explicaciones := explicaciones + [ManualReworkMany];
    } else if data.numRetrabajos == 1 {
      score := score + 2;
      explicaciones := explicaciones + [ManualReworkOne];
    }

    if "INSPECCION" <= Upper(data.estacionActual) {
      score := score + 1;
      explicaciones := explicaciones + [ManualInspection];
    }

    score := if score < MaxScore then score else MaxScore;

    var nivel: string;
    if score >= AltoThreshold {
      nivel := "ALTO";
    } else if score >= MedioThreshold {
      nivel := "MEDIO";
    } else {
      nivel := "BAJO";
    }

    assert explicaciones == ManualReasons(data);
    var joined := Join(explicaciones, " ");
    r := Ok(RiskOutput(score, nivel, if joined == "" then ManualFallback else joined));
  }

  /** The explanation and the score agree: a fragment per rule that added
      weight, none when the score is 0 (and then the fallback text is used). */
  lemma ManualReasonsMatchScore(data: RiskInput)
    ensures |ManualReasons(data)| ==
      (if TimeWeight(data.tiempoTotalSegundos) > 0 then 1 else 0)
      + (if ManualReworkWeight(data.numRetrabajos) > 0 then 1 else 0)
      + (if StationWeight(data.estacionActual) > 0 then 1 else 0)
    ensures ManualReasons(data) == [] <==> ManualScore(data) == 0
    ensures ManualReasons(data) == [] ==> Explanation(ManualReasons(data)) == ManualFallback
  {
  }

  /** The manual rules sum to at most 0.9, so the clamp never changes a
      manual score. */
  lemma ManualScoreUnclamped(data: RiskInput)
    ensures ManualScore(data) == TimeWeight(data.tiempoTotalSegundos)
      + ManualReworkWeight(data.numRetrabajos) + StationWeight(data.estacionActual)
    ensures ManualScore(data) <= 9
  {
  }

  /** 650 s, one rework, at "inspeccion final": 0.2 + 0.2 + 0.1 = 0.5, MEDIO. */
  lemma ManualScoreExample()
    ensures var d := RiskInput(1, 1, 650, "inspeccion final", "A");
      ManualScore(d) == 5 && Level(ManualScore(d)) == "MEDIO"
  {
    var s := "inspeccion final";
    assert Upper(s)[..10] == "INSPECCION";
  }

  // ------------------------------------------------------------------
  // Per-part scorer

  datatype PartRiskScore = PartRiskScore(
    partId: int,
    tiempoTotal: int,
    scrapCount: nat,
    retrabajos: nat,
    riesgo: Tenths,
    razones: seq<string>)

  const PartNotFoundDetail: string := "La pieza no existe."
  const NoEventsReason: string := "No hay eventos registrados para esta pieza."
  const PartTimeHigh: string := "Tiempo total elevado."
  const PartTimeAbove: string := "Tiempo total encima del promedio."
  const PartScrap: string := "Historial de SCRAP."
  const PartReworkMany: string := "Múltiples retrabajos."
  const PartReworkOne: string := "Un retrabajo registrado."
  const NoFactorsReason: string := "Sin factores de riesgo detectados."

  /** `sum(1 for ev in events if ev.resultado == resultado)` */
  function CountResult(events: seq<TraceEvent>, resultado: string): (n: nat)
    ensures n <= |events|
    ensures n > 0 <==> exists k :: 0 <= k < |events| && events[k].resultado == resultado
  {
    if events == [] then 0
    else (if events[0].resultado == resultado then 1 else 0) + CountResult(events[1..], resultado)
  }

  function ScrapWeight(scrapCount: nat): Tenths {
    if scrapCount > 0 then 4 else 0
  }

  /** The rework rule of the per-part scorer: two or more add 0.2, exactly
      one adds 0.1. */
  function PartReworkWeight(retrabajos: nat): Tenths {
    if retrabajos >= 2 then 2 else if retrabajos == 1 then 1 else 0
  }

  function PartScore(tiempoTotal: int, scrapCount: nat, retrabajos: nat): Tenths {
    Clamp(TimeWeight(tiempoTotal) + ScrapWeight(scrapCount) + PartReworkWeight(retrabajos))
  }

  function PartTimeReasons(tiempoTotal: int): seq<string> {
    if tiempoTotal > 900 then [PartTimeHigh] else if tiempoTotal > 600 then [PartTimeAbove] else []
  }

  function PartScrapReasons(scrapCount: nat): seq<string> {
    if scrapCount > 0 then [PartScrap] else []
  }

  function PartReworkReasons(retrabajos: nat): seq<string> {
    if retrabajos >= 2 then [PartReworkMany] else if retrabajos == 1 then [PartReworkOne] else []
  }

  /** The reasons for a part with events: one per rule that fired, in the
      order time, scrap, rework, or the placeholder when none fired. */
  function PartReasons(tiempoTotal: int, scrapCount: nat, retrabajos: nat): seq<string> {
    var fired := PartTimeReasons(tiempoTotal) + PartScrapReasons(scrapCount) + PartReworkReasons(retrabajos);
    if fired == [] then [NoFactorsReason] else fired
  }

  /** The `for ev in events` loop of `risk_score_part`: the durations of the
      events with both timestamps, added up. */
  method SumClosedDurations(evs: seq<TraceEvent>) returns (totalTime: int)
    ensures totalTime == ClosedTotal(evs)
  {
    totalTime := 0;
    for k := 0 to |evs|
      invariant totalTime == ClosedTotal(evs[..k])
    {
      var ev := evs[k];
      if ev.timestampEntrada.Some? && ev.timestampSalida.Some? {
        totalTime := totalTime + (ev.timestampSalida.value - ev.timestampEntrada.value);
      }
      assert evs[..k + 1] == evs[..k] + [ev];
      ClosedTotalAppend(evs[..k], ev);
    }
    assert evs[..|evs|] == evs;
  }

  /** The rule block of `risk_score_part`: `riesgo` grows with `+=` and
      `razones` with `append`, one category after the other, then the
      placeholder and the clamp. */
  method ApplyPartRules(totalTime: int, scrapCount: nat, retrabajoCount: nat)
    returns (riesgo: Tenths, razones: seq<string>)
    ensures riesgo == PartScore(totalTime, scrapCount, retrabajoCount)
    ensures razones == PartReasons(totalTime, scrapCount, retrabajoCount)
    ensures 0 <= riesgo <= MaxScore && |razones| >= 1
  {
    riesgo := 0;
    razones := [];

    if totalTime > 900 {
      riesgo := riesgo + 4;
      razones := razones + [PartTimeHigh];
    } else if totalTime > 600 {
      riesgo := riesgo + 2;
      razones := razones + [PartTimeAbove];
    }
    assert riesgo == TimeWeight(totalTime) && razones == PartTimeReasons(totalTime);

    if scrapCount > 0 {
      riesgo := riesgo + 4;
      razones := razones + [PartScrap];
    }
    assert riesgo == TimeWeight(totalTime) + ScrapWeight(scrapCount);
    assert razones == PartTimeReasons(totalTime) + PartScrapReasons(scrapCount);

    if retrabajoCount >= 2 {
      riesgo := riesgo + 2;
      razones := razones + [PartReworkMany];
    } else if retrabajoCount == 1 {
      riesgo := riesgo + 1;
      razones := razones + [PartReworkOne];
    }
    assert riesgo == TimeWeight(totalTime) + ScrapWeight(scrapCount) + PartReworkWeight(retrabajoCount);
    assert razones == PartTimeReasons(totalTime) + PartScrapReasons(scrapCount) + PartReworkReasons(retrabajoCount);

    ghost var fired := razones;
    if razones == [] {
      razones := razones + [NoFactorsReason];
    }
    assert razones == (if fired == [] then [NoFactorsReason] else fired);
    assert razones == PartReasons(totalTime, scrapCount, retrabajoCount);

    riesgo := if riesgo < MaxScore then riesgo else MaxScore;
    assert riesgo == PartScore(totalTime, scrapCount, retrabajoCount);
  }

  /** The score of the events of one part (`evs` already filtered by part). */
  method ScoreEvents(partId: int, evs: seq<TraceEvent>) returns (s: PartRiskScore)
    ensures s.partId == partId
    ensures s.tiempoTotal == ClosedTotal(evs)
    ensures s.scrapCount == CountResult(evs, "SCRAP")
    ensures s.retrabajos == CountResult(evs, "RETRABAJO")
    ensures s.riesgo == PartScore(s.tiempoTotal, s.scrapCount, s.retrabajos)
    ensures s.razones == (if evs == [] then [NoEventsReason] else PartReasons(s.tiempoTotal, s.scrapCount, s.retrabajos))
  {
    if evs == [] {
      return PartRiskScore(partId, 0, 0, 0, 0, [NoEventsReason]);
    }
    var totalTime := SumClosedDurations(evs);
    var scrapCount := CountResult(evs, "SCRAP");
    var retrabajoCount := CountResult(evs, "RETRABAJO");
    var riesgo, razones := ApplyPartRules(totalTime, scrapCount, retrabajoCount);
    s := PartRiskScore(partId, totalTime, scrapCount, retrabajoCount, riesgo, razones);
  }

  /** `risk_score_part` on a snapshot of the part table and the event store. */
  method RiskScorePart(partId: int, parts: seq<Part>, events: seq<TraceEvent>) returns (r: Result<PartRiskScore>)
    ensures r.Err? <==> !HasPart(parts, partId)
    ensures r.Err? ==> r.error == NotFound(PartNotFoundDetail)
    ensures r.Ok? ==>
      var evs := EventsOf(events, partId);
      && r.value.partId == partId
      && r.value.tiempoTotal == ClosedTotal(evs)
      && r.value.scrapCount == CountResult(evs, "SCRAP")
      && r.value.retrabajos == CountResult(evs, "RETRABAJO")
      && r.value.riesgo == PartScore(r.value.tiempoTotal, r.value.scrapCount, r.value.retrabajos)
      && r.value.razones == (if evs == [] then [NoEventsReason]
                             else PartReasons(r.value.tiempoTotal, r.value.scrapCount, r.value.retrabajos))
  {
    if !HasPart(parts, partId) {
      return Err(NotFound(PartNotFoundDetail));
    }
    var s := ScoreEvents(partId, EventsOf(events, partId));
    r := Ok(s);
  }


  /** An event without both timestamps adds nothing to the time total but
      still counts towards the SCRAP and RETRABAJO totals. */
  lemma OpenEventAddsNoTime(events: seq<TraceEvent>, e: TraceEvent)
    requires !Closed(e)
    ensures ClosedTotal(events + [e]) == ClosedTotal(events)
    ensures CountResult(events + [e], e.resultado) == CountResult(events, e.resultado) + 1
  {
    ClosedTotalAppend(events, e);
    CountResultAppend(events, e);
  }

  lemma {:induction false} CountResultAppend(events: seq<TraceEvent>, e: TraceEvent)
    ensures forall res :: CountResult(events + [e], res) == CountResult(events, res) + (if e.resultado == res then 1 else 0)
  {
    if events != [] {
      assert (events + [e])[1..] == events[1..] + [e];
      CountResultAppend(events[1..], e);
    } else {
      assert [e][1..] == [];
    }
  }

  /** SCRAP and RETRABAJO are different results: no event is counted twice. */
  lemma {:induction false} ScrapAndReworkDisjoint(events: seq<TraceEvent>)
    ensures CountResult(events, "SCRAP") + CountResult(events, "RETRABAJO") <= |events|
  {
    if events != [] {
      ScrapAndReworkDisjoint(events[1..]);
    }
  }

  /** The per-part rules sum to at most 1.0 exactly (0.4 + 0.4 + 0.2). */
  lemma PartScoreBounds(tiempoTotal: int, scrapCount: nat, retrabajos: nat)
    ensures 0 <= PartScore(tiempoTotal, scrapCount, retrabajos) <= MaxScore
    ensures PartScore(tiempoTotal, scrapCount, retrabajos)
      == TimeWeight(tiempoTotal) + ScrapWeight(scrapCount) + PartReworkWeight(retrabajos)
    ensures PartScore(tiempoTotal, scrapCount, retrabajos) == 0 <==>
      PartReasons(tiempoTotal, scrapCount, retrabajos) == [NoFactorsReason]
  {
    assert NoFactorsReason[0] == 'S';
    assert PartTimeHigh[0] == 'T' && PartTimeAbove[0] == 'T' && PartScrap[0] == 'H';
    assert PartReworkMany[0] == 'M' && PartReworkOne[0] == 'U';
  }

  /** A part with events always gets at least one reason. */
  lemma PartReasonsNonEmpty(tiempoTotal: int, scrapCount: nat, retrabajos: nat)
    ensures |PartReasons(tiempoTotal, scrapCount, retrabajos)| >= 1
  {
  }

  /** 950 s in total with one SCRAP and no rework: 0.4 + 0.4 = 0.8, with the
      time and scrap reasons in that order. */
  lemma PartScoreExample()
    ensures PartScore(950, 1, 0) == 8 && Level(PartScore(950, 1, 0)) == "ALTO"
    ensures PartReasons(950, 1, 0) == [PartTimeHigh, PartScrap]
  {
  }

  // ------------------------------------------------------------------
  // Anomalies

  datatype Anomaly = Anomaly(partId: int, tiempoTotalSeg: int, porcentajeSobrePromedio: real)

  /** A part whose summed closed durations exceed 1.5 times the mean. A
      part none of whose events is closed has a NULL sum and never passes
      the HAVING clause. */
  predicate IsAnomalous(events: seq<TraceEvent>, partId: int, mean: real) {
    var evs := EventsOf(events, partId);
    ClosedCount(evs) > 0 && ClosedTotal(evs) as real > mean * 1.5
  }

  /** The row reported for a part; the percentage is left unrounded. */
  function Report(events: seq<TraceEvent>, partId: int, mean: real): Anomaly
    requires mean != 0.0
  {
    var total := ClosedTotal(EventsOf(events, partId));
    Anomaly(partId, total, total as real / mean * 100.0)
  }

  function PartIdsOf(events: seq<TraceEvent>): (r: seq<int>)
    ensures |r| == |events|
    ensures forall k :: 0 <= k < |r| ==> r[k] == events[k].partId
  {
    seq(|events|, k requires 0 <= k < |events| => events[k].partId)
  }

  function ReportedIds(rows: seq<Anomaly>): (r: seq<int>)
    ensures |r| == |rows|
    ensures forall k :: 0 <= k < |r| ==> r[k] == rows[k].partId
  {
    seq(|rows|, k requires 0 <= k < |rows| => rows[k].partId)
  }

  /** `row` is the report of an anomalous part of `ids`. */
  predicate Reported(events: seq<TraceEvent>, ids: seq<int>, mean: real, row: Anomaly)
    requires mean != 0.0
  {
    row.partId in ids && IsAnomalous(events, row.partId, mean) && row == Report(events, row.partId, mean)
  }

  /** Every row is the report of an anomalous part of `ids`. */
  predicate FlagSound(events: seq<TraceEvent>, ids: seq<int>, mean: real, rows: seq<Anomaly>)
    requires mean != 0.0
  {
    forall k :: 0 <= k < |rows| ==> Reported(events, ids, mean, rows[k])
  }

  /** Every anomalous part of `ids` has a row. */
  predicate FlagComplete(events: seq<TraceEvent>, ids: seq<int>, mean: real, rows: seq<Anomaly>) {
    forall id :: id in ids && IsAnomalous(events, id, mean) ==> id in ReportedIds(rows)
  }

  /** The HAVING filter over the groups `ids`, in the order given. */
  function Flag(events: seq<TraceEvent>, ids: seq<int>, mean: real): (r: seq<Anomaly>)
    requires mean != 0.0
    ensures FlagSound(events, ids, mean, r)
    ensures FlagComplete(events, ids, mean, r)
    ensures NoDuplicates(ids) ==> NoDuplicates(ReportedIds(r))
  {
    if ids == [] then []
    else
      var rest := Flag(events, ids[1..], mean);
      FlagStep(events, ids, mean, rest);
      if IsAnomalous(events, ids[0], mean) then [Report(events, ids[0], mean)] + rest else rest
  }

  lemma FlagStep(events: seq<TraceEvent>, ids: seq<int>, mean: real, rest: seq<Anomaly>)
    requires mean != 0.0 && ids != []
    requires FlagSound(events, ids[1..], mean, rest) && FlagComplete(events, ids[1..], mean, rest)
    requires NoDuplicates(ids[1..]) ==> NoDuplicates(ReportedIds(rest))
    ensures IsAnomalous(events, ids[0], mean) ==>
      var r := [Report(events, ids[0], mean)] + rest;
      && FlagSound(events, ids, mean, r) && FlagComplete(events, ids, mean, r)
      && (NoDuplicates(ids) ==> NoDuplicates(ReportedIds(r)))
    ensures !IsAnomalous(events, ids[0], mean) ==>
      && FlagSound(events, ids, mean, rest) && FlagComplete(events, ids, mean, rest)
      && (NoDuplicates(ids) ==> NoDuplicates(ReportedIds(rest)))
  {
    var row := Report(events, ids[0], mean);
    FlagSoundStep(events, ids, mean, rest, row);
    FlagCompleteStep(events, ids, mean, rest, row);
    if NoDuplicates(ids) {
      assert NoDuplicates(ids[1..]);
      FlagFreshId(ids, rest);
      assert ReportedIds([row] + rest) == [ids[0]] + ReportedIds(rest);
    }
  }

  lemma FlagSoundStep(events: seq<TraceEvent>, ids: seq<int>, mean: real, rest: seq<Anomaly>, row: Anomaly)
    requires mean != 0.0 && ids != []
    requires FlagSound(events, ids[1..], mean, rest)
    requires row == Report(events, ids[0], mean)
    ensures FlagSound(events, ids, mean, rest)
    ensures IsAnomalous(events, ids[0], mean) ==> FlagSound(events, ids, mean, [row] + rest)
  {
    FlagSoundWiden(events, ids, mean, rest);
    if IsAnomalous(events, ids[0], mean) {
      assert Reported(events, ids, mean, row);
      FlagSoundCons(events, ids, mean, rest, row);
    }
  }

  /** Rows reported for the tail of `ids` are reported for `ids`. */
  lemma FlagSoundWiden(events: seq<TraceEvent>, ids: seq<int>, mean: real, rest: seq<Anomaly>)
    requires mean != 0.0 && ids != []
    requires FlagSound(events, ids[1..], mean, rest)
    ensures FlagSound(events, ids, mean, rest)
  {
    forall k | 0 <= k < |rest| ensures Reported(events, ids, mean, rest[k]) {
      assert Reported(events, ids[1..], mean, rest[k]);
      assert rest[k].partId in ids;
    }
  }

  lemma FlagSoundCons(events: seq<TraceEvent>, ids: seq<int>, mean: real, rest: seq<Anomaly>, row: Anomaly)
    requires mean != 0.0
    requires FlagSound(events, ids, mean, rest) && Reported(events, ids, mean, row)
    ensures FlagSound(events, ids, mean, [row] + rest)
  {
    var r := [row] + rest;
    forall k | 0 <= k < |r| ensures Reported(events, ids, mean, r[k]) {
      if k > 0 { assert r[k] == rest[k - 1]; }
    }
  }


  lemma FlagCompleteStep(events: seq<TraceEvent>, ids: seq<int>, mean: real, rest: seq<Anomaly>, row: Anomaly)
    requires mean != 0.0 && ids != []
    requires FlagComplete(events, ids[1..], mean, rest)
    requires row.partId == ids[0]
    ensures !IsAnomalous(events, ids[0], mean) ==> FlagComplete(events, ids, mean, rest)
    ensures FlagComplete(events, ids, mean, [row] + rest)
  {
    assert forall id :: id in ids ==> id == ids[0] || id in ids[1..];
    assert ReportedIds([row] + rest) == [ids[0]] + ReportedIds(rest);
  }

  /** With no duplicates in `ids`, the head of `ids` is not reported by the tail. */
  lemma FlagFreshId(ids: seq<int>, rest: seq<Anomaly>)
    requires ids != [] && NoDuplicates(ids)
    requires forall k :: 0 <= k < |rest| ==> rest[k].partId in ids[1..]
    ensures ids[0] !in ReportedIds(rest)
  {
    forall k | 0 <= k < |rest| ensures rest[k].partId != ids[0] {
      var j :| 0 <= j < |ids[1..]| && ids[1..][j] == rest[k].partId;
      assert ids[j + 1] == rest[k].partId;
    }
  }



  /** `anomalies`: the parts whose total time is more than 150% of the mean
      event duration, or nothing when that mean is NULL or zero. */
  function Anomalies(events: seq<TraceEvent>): (r: seq<Anomaly>)
    ensures MeanDuration(events).None? || MeanDuration(events) == Some(0.0) ==> r == []
    ensures forall k :: 0 <= k < |r| ==>
      && MeanDuration(events).Some? && MeanDuration(events).value != 0.0
      && IsAnomalous(events, r[k].partId, MeanDuration(events).value)
      && r[k] == Report(events, r[k].partId, MeanDuration(events).value)
    ensures forall id ::
      (MeanDuration(events).Some? && MeanDuration(events).value != 0.0
       && IsAnomalous(events, id, MeanDuration(events).value)) ==> id in ReportedIds(r)
    ensures NoDuplicates(ReportedIds(r))
  {
    match MeanDuration(events)
    case None => []
    case Some(mean) =>
      if mean == 0.0 then []
      else
        var ids := Dedup(PartIdsOf(events));
        forall id | IsAnomalous(events, id, mean) ensures id in ids {
          AnomalousPartHasEvents(events, id, mean);
        }
        Flag(events, ids, mean)
  }

  lemma AnomalousPartHasEvents(events: seq<TraceEvent>, partId: int, mean: real)
    requires IsAnomalous(events, partId, mean)
    ensures partId in PartIdsOf(events)
  {
    var e :| e in EventsOf(events, partId) && Closed(e);
    EventsOfMember(events, partId, e);
    var k :| 0 <= k < |events| && events[k] == e;
    assert PartIdsOf(events)[k] == partId;
  }

  lemma PercentAboveThreshold(total: real, mean: real)
    requires mean > 0.0 && total > mean * 1.5
    ensures total / mean * 100.0 > 150.0
  {
    var q := total / mean;
    assert q * mean == total;
    assert q > 1.5;
  }

  /** When the mean is not negative every reported percentage exceeds 150
      (a zero mean reports nothing). */
  lemma AnomaliesAboveThreshold(events: seq<TraceEvent>)
    requires MeanDuration(events).Some? ==> MeanDuration(events).value >= 0.0
    ensures forall k :: 0 <= k < |Anomalies(events)| ==> Anomalies(events)[k].porcentajeSobrePromedio > 150.0
  {
    var r := Anomalies(events);
    if r != [] {
      var mean := MeanDuration(events).value;
      forall k | 0 <= k < |r| ensures r[k].porcentajeSobrePromedio > 150.0 {
        var total := ClosedTotal(EventsOf(events, r[k].partId));
        assert IsAnomalous(events, r[k].partId, mean);
        assert r[k].porcentajeSobrePromedio == total as real / mean * 100.0;
        PercentAboveThreshold(total as real, mean);
      }
    }
  }

  /** On a well-formed store (no exit before its entry) the mean is never
      negative, so the bound above always holds. */
  lemma AnomaliesAboveThresholdWellFormed(events: seq<TraceEvent>)
    requires WellFormed(events)
    ensures forall k :: 0 <= k < |Anomalies(events)| ==> Anomalies(events)[k].porcentajeSobrePromedio > 150.0
  {
    if ClosedCount(events) > 0 {
      ClosedTotalNonNegative(events);
      MeanNonNegative(ClosedTotal(events), ClosedCount(events));
    }
    AnomaliesAboveThreshold(events);
  }

  /** Nothing stops an exit before its entry. With one such event the mean
      turns negative, the threshold with it, and a part whose one event took
      no time at all is reported at 0 %. */
  lemma NegativeMeanReportsIdlePart()
    ensures var events := [TraceEvent(1, 1, 1, None, Some(100), Some(0), "OK", None),
                           TraceEvent(2, 2, 1, None, Some(0), Some(0), "OK", None)];
      && MeanDuration(events) == Some(-50.0)
      && Report(events, 2, -50.0) in Anomalies(events)
      && Report(events, 2, -50.0).porcentajeSobrePromedio == 0.0
  {
    var e1 := TraceEvent(1, 1, 1, None, Some(100), Some(0), "OK", None);
    var e2 := TraceEvent(2, 2, 1, None, Some(0), Some(0), "OK", None);
    var events := [e1, e2];
    NegativeMeanFacts(e1, e2);
    var r := Anomalies(events);
    assert 2 in ReportedIds(r);
    var k :| 0 <= k < |r| && ReportedIds(r)[k] == 2;
    assert r[k] == Report(events, 2, -50.0);
  }

  lemma NegativeMeanFacts(e1: TraceEvent, e2: TraceEvent)
    requires e1 == TraceEvent(1, 1, 1, None, Some(100), Some(0), "OK", None)
    requires e2 == TraceEvent(2, 2, 1, None, Some(0), Some(0), "OK", None)
    ensures MeanDuration([e1, e2]) == Some(-50.0)
    ensures EventsOf([e1, e2], 2) == [e2]
    ensures IsAnomalous([e1, e2], 2, -50.0)
    ensures Report([e1, e2], 2, -50.0).porcentajeSobrePromedio == 0.0
  {
    var events := [e1, e2];
    assert events[1..] == [e2] && [e2][1..] == [];
    assert ClosedTotal([e2]) == 0 && ClosedCount([e2]) == 1;
    assert ClosedTotal(events) == -100 && ClosedCount(events) == 2;
    assert EventsOf([e2], 2) == [e2];
    assert EventsOf(events, 2) == [] + EventsOf([e2], 2);
  }
}
