# Manufacturing traceability backend: a Dafny model

This project models the decision logic of a small FastAPI backend that keeps
the history of manufactured parts moving through stations.

- **Parts** carry a unique serial, a type, a batch (`lote`) and a status. A
  new part always has a batch; a PATCH may clear it, since the column is
  nullable.
- **Stations** carry a name, a kind and an optional line.
- **Trace events** record one visit of a part to a station: an entry time set
  by the server, an optional exit time, a result (OK, SCRAP, RETRABAJO) and an
  optional note.

Modelled:

- the three live endpoints of the rule-based risk module: the manual
  evaluator, the per-part scorer over stored events, and the anomaly report;
- the role and password validators of the user schema;
- the four role gates;
- the four aggregate metrics;
- the create, read, update, delete and list endpoints for parts, stations and
  trace events, over in-memory tables.

Representation:

- The database is a set of in-memory tables. Each table is a class holding
  its rows as a sequence, in id order, plus an autoincrement counter.
- Queries and aggregates are functions over sequences of records.
- Errors are a `Result` whose error side is `Validation`, `NotFound`,
  `Forbidden`, `Duplicate` or `ServerError`. Each error carries the detail
  text the endpoint sends. `ServerError` is the answer when a stored row does
  not fit the response model: `PartOut` declares `lote: str`, so a part whose
  batch was cleared cannot be returned.
- Scores are integer tenths: 0.4 is 4, the clamp 1.0 is 10, and the level
  thresholds 0.7 and 0.4 are 7 and 4.
  - Every float sum the rules can reach compares with those thresholds as its
    tenths count does.
  - For instance, 0.4 + 0.2 + 0.1 evaluates to 0.7000000000000001, which is
    still ALTO.
- Timestamps are integer seconds in UTC; a calendar date is a day number.
  Means, rates and percentages are exact reals.
- A PATCH is a partial update: `model_dump(exclude_unset=True)` followed by a
  `setattr` loop. It is modelled three ways:
  - as the sequence of field assignments it dumps;
  - as a method that runs that loop;
  - as a reference field-wise `Patch`.
  Lemmas prove the loop performs exactly the reference update.
- The order of SQL `GROUP BY` groups is unspecified. The model fixes one
  order: each group is listed where its last member stands.

Modules:

| module | file | models |
|---|---|---|
| `Common` | common.dfy | `Option`, `Result`, the error kinds, the PATCH field `Field` |
| `Text` | text.dfy | ASCII `strip`, `upper`, `startswith` and `join` |
| `Tally` | tally.dfy | counting, de-duplication and group counting |
| `Records` | records.dfy | the row shapes, and the durations of closed events |
| `UserSchema` | user_schema.dfy | app/schemas/user.py |
| `Roles` | roles.dfy | app/core/roles.py |
| `Ai` | ai.dfy | app/api/ai.py, live code from line 223 |
| `Metrics` | metrics.dfy | app/api/metrics.py |
| `Parts` | parts.dfy | app/api/parts.py |
| `Stations` | stations.dfy | app/api/stations.py |
| `TraceEvents` | trace_events.dfy | app/api/trace_events.py |

The model follows the code:

- the manual evaluator adds 0.4 for two or more reworks and 0.2 for one;
- the per-part scorer computes no risk level;
- the store does not reject an exit time before its entry time, so the mean
  event duration can be negative.

The batch is nullable in the database but required in the response model. A
PATCH that clears it is committed, and then its own response and every later
read of that part answer with a server error.

## Model

| member | source | states |
|---|---|---|
| Ai.RiskScore | app/api/ai.py:252-303 | A negative total time fails first, then a negative rework count, both as validation errors with their texts; otherwise the result is Ok. The score is the clamped sum of the three rule categories and lies in [0, 1.0]. The level is ALTO iff score ≥ 0.7, MEDIO iff 0.4 ≤ score < 0.7, BAJO otherwise. The explanation is the fired fragments joined by spaces, or the fallback text, and is never empty. |
| Ai.ManualReasonsMatchScore | app/api/ai.py:267-302 | There is exactly one explanation fragment per category that added weight. There are no fragments iff the score is 0, and then the explanation is the fallback text. |
| Ai.ManualScoreUnclamped | app/api/ai.py:268-289 | The manual score is the plain sum of the time, rework and station weights, each category contributing one tier. The sum is at most 0.9, so the clamp never changes it. |
| Ai.ManualScoreExample | app/api/ai.py:268-297 | 650 s, one rework and station "inspeccion final" give 0.2 + 0.2 + 0.1 = 0.5, level MEDIO; the station matches after upper-casing. |
| Ai.SumClosedDurations | app/api/ai.py:339-343 | The `for ev in events` loop returns the sum of `salida - entrada` over the events that have both timestamps. |
| Ai.ApplyPartRules | app/api/ai.py:348-381 | The `+=`/`append` rule block. `riesgo` is the clamped sum of the time (0.4/0.2), scrap (0.4) and rework (0.2/0.1) weights and lies in [0, 1.0]. `razones` lists the fired reasons in order time, scrap, rework, or the placeholder, and is never empty. |
| Ai.ScoreEvents | app/api/ai.py:328-383 | The score of a part's events. The total is over closed events only; `scrap_count` and `retrabajos` are the exact numbers of SCRAP and RETRABAJO results. With no events the part gets zero counts, score 0 and the single no-events reason. |
| Ai.RiskScorePart | app/api/ai.py:307-383 | Not-found ("La pieza no existe.") iff no part has the id. Otherwise the same totals, counts, score and reasons as `ScoreEvents`, computed over exactly that part's events. |
| Ai.OpenEventAddsNoTime | app/api/ai.py:339-346 | An event missing a timestamp adds nothing to the total time, but still counts towards its result's count. |
| Ai.CountResultAppend | app/api/ai.py:345-346 | Appending an event raises the count of its own result by one and leaves every other result's count unchanged. |
| Ai.ScrapAndReworkDisjoint | app/api/ai.py:345-346 | No event is counted as both SCRAP and RETRABAJO: the two counts together never exceed the number of events. |
| Ai.PartScoreBounds | app/api/ai.py:352-381 | The part score lies in [0, 1.0] and equals the unclamped sum of the three weights, which is at most exactly 1.0. It is 0 iff the reasons are exactly the placeholder. |
| Ai.PartReasonsNonEmpty | app/api/ai.py:372-374 | A part with events always gets at least one reason. |
| Ai.PartScoreExample | app/api/ai.py:352-370 | 950 s with one SCRAP and no rework gives 0.8, with the time reason then the scrap reason. |
| Ai.Flag | app/api/ai.py:410-437 | Over a list of candidate part ids, the generated rows are sound and complete. Every row is an anomalous candidate with its report, every anomalous candidate gets a row, and distinct candidates give distinct rows. |
| Ai.Anomalies | app/api/ai.py:396-437 | The report is empty when the mean event duration is undefined or zero. Otherwise every row is a part whose summed closed duration exceeds 1.5 × the mean, with its total and its percentage of the mean. Every such part is reported, and each only once. |
| Ai.AnomalousPartHasEvents | app/api/ai.py:410-428 | A part that passes the HAVING clause occurs among the stored events. |
| Ai.AnomaliesAboveThreshold | app/api/ai.py:405-436 | Whenever the mean duration is not negative, every reported percentage over the mean is above 150 (before rounding); a zero mean reports nothing. |
| Ai.AnomaliesAboveThresholdWellFormed | app/api/ai.py:405-436 | On a store where no exit precedes its entry the mean is not negative, so every reported percentage is above 150. |
| Ai.NegativeMeanReportsIdlePart | app/api/ai.py:396-436 | With events (entry 100, exit 0) and (entry 0, exit 0) the mean is −50. The threshold −75 then lets the second part through, although its event took no time, and it is reported at 0 %. |
| Ai.Clamp | app/api/ai.py:289 | `min(score, 1.0)`: the result is at most the score and at most 1.0, and equals one of them. |
| Ai.Level | app/api/ai.py:291-297 | ALTO iff score ≥ 0.7, MEDIO iff 0.4 ≤ score < 0.7, BAJO iff score < 0.4. |
| Ai.Explanation | app/api/ai.py:302 | Never empty. With no fragments it is the fallback text. With some non-empty fragment it is the fragments joined by single spaces. |
| Ai.CountResult | app/api/ai.py:345-346 | The count is at most the number of events. It is positive iff some event has that result. |
| Text.Strip | app/schemas/user.py:26 | `strip()` returns the slice of the input left after dropping whitespace at both ends. The result starts and ends with a non-space, and it is empty iff the input is all whitespace. |
| Text.Upper | app/api/ai.py:284 | `upper()` keeps the length and upper-cases each character on its own, so no lower-case ASCII letter remains. |
| Records.EventsOfMember | app/api/ai.py:322-326 | The filter `TraceEvent.part_id == part_id` keeps exactly the events of that part. |
| Records.ClosedTotalAppend | app/api/ai.py:339-343 | Appending an event adds its duration to the total, and one to the number of closed events, only when it has both timestamps. |
| Records.MeanDuration | app/api/ai.py:396-403 | SQL `AVG` of the durations is defined iff at least one event has both timestamps. |
| UserSchema.ValidateRol | app/schemas/user.py:15-33 | The empty string is rejected with its own text. Otherwise the role is accepted iff `strip().upper()` of it is an allowed role, and then that normalised value is returned. Any other role is rejected with the text listing the sorted roles. |
| UserSchema.ValidatePassword | app/schemas/user.py:39-49 | An empty or all-blank password is rejected first. A password shorter than 6 is rejected next. Otherwise the password is returned unchanged. |
| UserSchema.MakeUserBase | app/schemas/user.py:9-33 | An omitted role defaults to OPERADOR, and an omitted `activo` to true. A sent role passes iff the validator accepts it. Every built user has an allowed role. |
| UserSchema.AllowedRoleAccepted | app/schemas/user.py:6-33 | Each allowed role is accepted as it is. |
| UserSchema.ValidateRolIdempotent | app/schemas/user.py:26-33 | Re-validating an accepted role returns it unchanged. |
| UserSchema.DefaultRoleAccepted | app/schemas/user.py:6-12 | The default role would itself pass the validator. |
| UserSchema.ValidateRolExample | app/schemas/user.py:26-33 | "admin" is accepted as "ADMIN". |
| Roles.RequireUser | app/core/roles.py:7-11 | Every authenticated user passes, unchanged. |
| Roles.RequireAdmin | app/core/roles.py:14-23 | Passes the user iff the role is ADMIN; otherwise forbidden with its text. |
| Roles.RequireSupervisorOrAdmin | app/core/roles.py:26-37 | Passes the user iff the role is SUPERVISOR or ADMIN; otherwise forbidden with its text. |
| Roles.RequireOperatorOrAdmin | app/core/roles.py:40-51 | Passes the user iff the role is OPERADOR or ADMIN; otherwise forbidden with its text. |
| Roles.GateTable | app/core/roles.py:18-46 | ADMIN passes every gate. SUPERVISOR passes only the supervisor gate, and OPERADOR only the operator gate. |
| Roles.GatesAdmitOnlyAllowedRoles | app/core/roles.py:5-51 | A user passes some restricted gate iff the role is one the user schema allows. |
| Metrics.PartsByStatus | app/api/metrics.py:22-27 | The map has a key iff some part has that status, and its value is the number of parts with that status, at least 1. |
| Metrics.PartsByStatusTotal | app/api/metrics.py:22-27 | The counts over the groups add up to the number of parts. |
| Metrics.OkOn | app/api/metrics.py:51-60 | A day's count is positive iff some event has result OK and an exit time on that day. |
| Metrics.DaysFrom | app/api/metrics.py:51-63 | The grouped rows from day `d` to `hi` are sound, ascending and complete. Sound: each row is in range and carries its day's nonzero count. Complete: every day with an OK exit has a row. |
| Metrics.Throughput | app/api/metrics.py:42-65 | A date that does not parse gives the validation error "Formato de fecha incorrecto. Usa YYYY-MM-DD.". Otherwise the rows are exactly the days in the inclusive range with OK exits, ascending, each with its count. |
| Metrics.ThroughputTotal | app/api/metrics.py:51-65 | With both dates valid, the counts of the rows add up to the number of OK exits whose day lies in the range. |
| Metrics.ClosedEventsMember | app/api/metrics.py:88-89 | The two `isnot(None)` filters keep exactly the events with both timestamps. |
| Metrics.AtStationMember | app/api/metrics.py:78-90 | A station's group is exactly the events at that station. |
| Metrics.CycleRows | app/api/metrics.py:94-100 | One row per listed station, in order, each carrying the mean duration of that station's closed events. |
| Metrics.StationCycleTime | app/api/metrics.py:78-100 | Each row's average is the mean over that station's events with both timestamps. Every station with such an event has a row, and no station has two. |
| Metrics.StationCycleIgnoresOpenEvents | app/api/metrics.py:78-100 | Adding an event that lacks a timestamp leaves the whole report unchanged. |
| Metrics.ScrapTiposMember | app/api/metrics.py:119-124 | The scrap grouping covers exactly the types that have a SCRAP part. |
| Metrics.ScrapRates | app/api/metrics.py:113-135 | The reference result has one row per grouped part type, in the group order, each named by its type. |
| Metrics.ScrapRatesTypes | app/api/metrics.py:113-135 | Some row names a type iff some part has that type. |
| Metrics.ScrapRatesDistinct | app/api/metrics.py:126-133 | No part type has two rows. |
| Metrics.Rate | app/api/metrics.py:132 | With no parts the rate is 0. Otherwise the rate times the total is the scrap count. |
| Metrics.ScrapRate | app/api/metrics.py:113-135 | The dictionary loop returns exactly the reference rows, and every rate lies in [0, 1]. |
| Metrics.ScrapNotAboveTotal | app/api/metrics.py:113-124 | A type never has more SCRAP parts than parts. |
| Metrics.ScrapRatesBounded | app/api/metrics.py:111-132 | Every reference rate lies in [0, 1]. |
| Metrics.ScrapRateExtremes | app/api/metrics.py:126-133 | A type's rate is 1 iff every part of the type is SCRAP, and 0 iff none is. |
| Metrics.RateBounds | app/api/metrics.py:132 | `scrap / total` with `scrap ≤ total` lies in [0, 1]. |
| Parts.PartTable.CreatePart | app/api/parts.py:30-41 | A serial already in the table is rejected ("El serial ya existe.") and nothing changes. Otherwise the part is appended with the next id, its batch and the server time, and earlier rows are untouched. The new part fits `PartOut`. Ids stay increasing and serials unique. |
| Parts.PartTable.GetPart | app/api/parts.py:94-100 | An unknown id gives not-found. Otherwise the result is the row with that id, or a server error when that row has no batch. |
| Parts.PartTable.UpdatePart | app/api/parts.py:115-143 | An unknown id gives not-found. Sending a serial that another part owns gives "Ya existe otra pieza con ese serial." and no change. Otherwise exactly that row becomes its field-wise patch, and ids and serial uniqueness are kept. The patch may clear the batch (`"lote": null`); that is stored, and then the response is a server error. |
| Parts.PatchFitsPartOut | app/api/parts.py:122-143 | After a PATCH the part fits `PartOut` iff the batch was sent as a value, or was left out and the part had one. |
| Parts.PartTable.DeletePart | app/api/parts.py:157-166 | An unknown id gives not-found; otherwise exactly that row is removed. |
| Parts.PartTable.ListParts | app/api/parts.py:63-80 | If every selected part has a batch, the result is exactly the parts that pass every given filter, in id order. If one has none, the whole list is a server error. An empty or absent text filter is no filter. Both date bounds are whole days, inclusive. |
| Parts.Query | app/api/parts.py:63-80 | The chain of `filter` calls keeps exactly the rows that pass every given filter, in id order. |
| Parts.CreatedUntilAsWritten | app/api/parts.py:78 | The bound as written keeps the parts created on an earlier day, plus the first second of the last day. |
| Parts.ApplyUpdate | app/api/parts.py:122-138 | The `setattr` loop over the dumped fields yields the field-wise patch: the fields sent replace the stored ones, and the id and creation date stay. |
| Parts.DumpIsPatch | app/api/parts.py:122-138 | Applying the dumped assignments in order is the field-wise patch. |
| Parts.Find | app/api/parts.py:94 | `query.get(id)` finds a row with the id iff the table has one. |
| Parts.KeepOwnSerial | app/api/parts.py:125-135 | Re-sending a part's own serial is never a conflict. |
| Parts.PatchKeepsValid | app/api/parts.py:125-138 | A patch that passed the serial check keeps ids increasing and serials unique. |
| Parts.RemoveAtKeepsValid | app/api/parts.py:164 | Deleting a row keeps ids increasing, ids issued, and serials unique. |
| Parts.RemoveAtMember | app/api/parts.py:164 | Deleting a row removes exactly the part with that id. |
| Parts.SelectSpec | app/api/parts.py:63-78 | One `query.filter` keeps exactly the rows that pass, in the same order. |
| Parts.CreatedFromWholeDays | app/api/parts.py:74-75 | `fecha_creacion >= fecha_desde` keeps exactly the parts created on that day or later. |
| Parts.CreatedUntilWholeDays | app/api/parts.py:77-78 | The corrected upper bound keeps exactly the parts created before the next midnight. |
| Parts.UntilAsWrittenDropsLastDay | app/api/parts.py:77-78 | A part created at 01:00 on the last day is excluded by the bound as written, but kept by the intended one. |
| Stations.StationTable.CreateStation | app/api/stations.py:24-35 | A name already in use is rejected ("Ya existe una estación con ese nombre.") and nothing changes. Otherwise the station is appended with the next id. |
| Stations.StationTable.ListStations | app/api/stations.py:47 | Returns every station, in id order. |
| Stations.StationTable.GetStation | app/api/stations.py:60-66 | Returns the station with the id iff one exists; otherwise not-found ("Estación no encontrada."). |
| Stations.StationTable.UpdateStation | app/api/stations.py:80-95 | An unknown id gives not-found. Otherwise exactly that row becomes its field-wise patch; the name is not re-checked. |
| Stations.StationTable.DeleteStation | app/api/stations.py:108-117 | An unknown id gives not-found; otherwise exactly that row is removed. |
| Stations.ApplyUpdate | app/api/stations.py:87-90 | The `setattr` loop yields the field-wise patch; `linea` may be cleared by sending null. |
| Stations.DumpIsPatch | app/api/stations.py:87-90 | Applying the dumped assignments in order is the field-wise patch. |
| Stations.Find | app/api/stations.py:60 | `query.get(id)` finds a row with the id iff the table has one. |
| Stations.CreateKeepsNamesUnique | app/api/stations.py:24-35 | Creation never introduces a second station with the same name. |
| Stations.UpdateMayDuplicateName | app/api/stations.py:80-91 | A PATCH can rename a station to another station's name, so names are not unique after updates. |
| Stations.RemoveAtKeepsIds | app/api/stations.py:115 | Deleting removes exactly the station with that id and keeps the ids ordered. |
| TraceEvents.EventStore.CreateTraceEvent | app/api/trace_events.py:24-47 | An unknown part gives "Pieza no encontrada." before the station is looked at. Otherwise an unknown station gives "Estación no encontrada.". Otherwise one event with the sent fields, the next id and the server time as entry is appended. The part and station tables are never changed. |
| TraceEvents.SortByEntry | app/api/trace_events.py:61 | `ORDER BY timestamp_entrada ASC` (NULLS LAST) yields a permutation of its input, sorted by entry time. |
| TraceEvents.ListTraceEventsForPart | app/api/trace_events.py:58-70 | Not-found ("No hay eventos para esa pieza.") iff the part has no events. Otherwise the result is that part's events, sorted by entry time; it is a permutation of them. |
| TraceEvents.ListedIffOfPart | app/api/trace_events.py:58-63 | The history lists an event iff it is stored and belongs to that part. |
| TraceEvents.RecordedEventListed | app/api/trace_events.py:38-63 | After an event is appended, its part's history is found and contains it. |

## Left out

- Floating point is left out. Scores are tenths, and durations, means and rates are exact.
- `round(..., 2)` on the anomaly percentage is left out.
  - It is Python's float rounding.
  - The model states properties of the unrounded value.
- `str.strip()` and `str.upper()` are modelled on ASCII letters and ASCII whitespace only. Unicode case mapping and Unicode spaces are not modelled.
- `datetime.strptime` is not modelled.
  - A date reaches the model already parsed, as a day number.
  - `None` stands for a string that does not parse.
- Time zones are not modelled. Calendar dates are taken in UTC.
- Authentication is not part of this model:
  - JWT decoding, password hashing and token expiry (app/api/auth.py, app/core/security.py);
  - the dependency wiring that attaches the role gates to routes.
  The gates are predicates on the user's role.
- HTTP status codes are not modelled. Outcomes are the five error kinds, each with its detail text.
- The `/stations/privado` route is not modelled; it only returns a greeting.
- app/api/ai.py lines 1-221 are not modelled. They sit inside a string literal and never run.
- SQLAlchemy sessions, `commit`, `refresh` and transactions are not modelled. Each endpoint acts on the tables in one step.
- Foreign-key failures are not modelled:
  - deleting a part or station that events still reference;
  - an `operador_id` that names no user.
  The model lets such operations through.
- Explicit JSON null for a NOT NULL column in a PATCH is not modelled: `serial`, `tipo_pieza` and `status` of a part, `nombre` and `tipo` of a station. The database refuses it at commit and the row stays as it was. The nullable columns, a part's `lote` and a station's `linea`, can be cleared, and the model does clear them.
- The history's `part_id` path parameter is a string compared with an integer column. The model takes it as an integer, so a non-numeric id is not modelled.
- Column length limits (`String(50)` and the like) are not enforced.
- SQL leaves two orders unspecified:
  - the order of `GROUP BY` results: the model fixes each group where its last member stands;
  - the order of history events with equal entry times: the model's contract promises only sortedness and a permutation.
- Metrics.StationCycleTime: the `None` branch for a missing average is not modelled. Both filters leave only closed events, so every group has an average.
- app/api/user.py (user CRUD) is not part of this model. It duplicates the role check and is database plumbing.
- Ai.RiskScorePart: the contract does not repeat the score bounds and the non-empty reasons; `Ai.ApplyPartRules`, `Ai.PartScoreBounds` and `Ai.PartReasonsNonEmpty` state them for the same functions.

## Findings

| source | as written | input that shows it | evidently intended | confidence | as-written member | corrected member |
|---|---|---|---|---|---|---|
| app/api/parts.py:77-78 | `Part.fecha_creacion <= fecha_hasta` compares a timestamp with a date, which counts as midnight at the start of that day | a part created at 01:00 on day 10, listed with `fecha_hasta` = day 10, is left out | parts created any time on the last day are included, making the range inclusive in whole days like `fecha_desde` | not executed | Parts.CreatedUntilAsWritten, shown by Parts.UntilAsWrittenDropsLastDay | Parts.CreatedUntil, proved by Parts.CreatedUntilWholeDays and used by Parts.PartTable.ListParts |
