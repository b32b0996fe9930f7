/** The part endpoints of app/api/parts.py over an in-memory part table.
    The table is the sequence of its rows in id order; ids come from an
    autoincrement counter, so a new row always goes last. */
module Parts {
  import opened Common
  import opened Records

  const SerialTakenDetail: string := "El serial ya existe."
  const PartNotFoundDetail: string := "Pieza no encontrada."
  const SerialOwnedDetail: string := "Ya existe otra pieza con ese serial."
  /** The plain-text body of an unhandled server error. */
  const ServerErrorDetail: string := "Internal Server Error"

  /** `PartCreate`: every field is required, so a new part always has a lot. */
  datatype PartCreate = PartCreate(serial: string, tipoPieza: string, lote: string, status: string)

  /** `PartUpdate` after parsing: each field either sent or left out; `lote`
      may be sent as null, which clears the nullable column. */
  datatype PartUpdate = PartUpdate(
    serial: Field<string>,
    tipoPieza: Field<string>,
    lote: Field<Option<string>>,
    status: Field<string>)

  /** One `setattr(part, field, value)`. */
  datatype PartAssign =
    | SetSerial(serial: string)
    | SetTipoPieza(tipoPieza: string)
    | SetLote(lote: Option<string>)
    | SetStatus(status: string)

  /** `model_dump(exclude_unset=True)`: the fields that were sent, in
      declaration order. */
  function Dump(u: PartUpdate): seq<PartAssign> {
    (if u.serial.Set? then [SetSerial(u.serial.value)] else [])
    + (if u.tipoPieza.Set? then [SetTipoPieza(u.tipoPieza.value)] else [])
    + (if u.lote.Set? then [SetLote(u.lote.value)] else [])
    + (if u.status.Set? then [SetStatus(u.status.value)] else [])
  }

  function Assign(p: Part, a: PartAssign): Part {
    match a
    case SetSerial(s) => p.(serial := s)
    case SetTipoPieza(t) => p.(tipoPieza := t)
    case SetLote(l) => p.(lote := l)
    case SetStatus(s) => p.(status := s)
  }

  /** The assignments performed in order. */
  function ApplyAll(p: Part, d: seq<PartAssign>): Part
    decreases |d|
  {
    if d == [] then p else Assign(ApplyAll(p, d[..|d| - 1]), d[|d| - 1])
  }

  /** The reference meaning of a PATCH: each field sent replaces the stored
      one; every other field, the id and the creation time included, stays. */
  function Patch(p: Part, u: PartUpdate): Part {
    Part(
      p.id,
      if u.serial.Set? then u.serial.value else p.serial,
      if u.tipoPieza.Set? then u.tipoPieza.value else p.tipoPieza,
      if u.lote.Set? then u.lote.value else p.lote,
      if u.status.Set? then u.status.value else p.status,
      p.fechaCreacion)
  }

  lemma {:induction false} ApplyAllAppend(p: Part, d1: seq<PartAssign>, d2: seq<PartAssign>)
    decreases |d2|
    ensures ApplyAll(p, d1 + d2) == ApplyAll(ApplyAll(p, d1), d2)
  {
    if d2 == [] {
      assert d1 + d2 == d1;
    } else {
      var init := d2[..|d2| - 1];
      assert (d1 + d2)[..|d1 + d2| - 1] == d1 + init;
      ApplyAllAppend(p, d1, init);
    }
  }

  /** The `setattr` loop over the dumped fields performs exactly the
      field-wise PATCH. */
  lemma DumpIsPatch(p: Part, u: PartUpdate)
    ensures ApplyAll(p, Dump(u)) == Patch(p, u)
  {
    var d1 := if u.serial.Set? then [SetSerial(u.serial.value)] else [];
    var d2 := if u.tipoPieza.Set? then [SetTipoPieza(u.tipoPieza.value)] else [];
    var d3 := if u.lote.Set? then [SetLote(u.lote.value)] else [];
    var d4 := if u.status.Set? then [SetStatus(u.status.value)] else [];
    ApplyAllAppend(p, d1 + d2 + d3, d4);
    ApplyAllAppend(p, d1 + d2, d3);
    ApplyAllAppend(p, d1, d2);
    assert ApplyAll(p, []) == p;
    assert [] + d1 == d1;
    ApplyAllAppend(p, [], d1);
  }

  // ---------------------------------------------------------------------
  // The response model

  /** `PartOut` declares `lote: str`, so a stored part whose lot was cleared
      does not fit it; the endpoint then answers with a server error. */
  predicate FitsPartOut(p: Part) {
    p.lote.Some?
  }

  /** A PATCH keeps a part serialisable exactly when it does not clear the
      lot and, leaving the lot out, the part had one before. */
  lemma PatchFitsPartOut(p: Part, u: PartUpdate)
    ensures FitsPartOut(Patch(p, u)) <==> if u.lote.Set? then u.lote.value.Some? else FitsPartOut(p)
  {
  }

  // ---------------------------------------------------------------------
  // Table invariants and lookups

  predicate IdsIncreasing(rows: seq<Part>) {
    forall i, j :: 0 <= i < j < |rows| ==> rows[i].id < rows[j].id
  }

  /** Every id is positive and below the next one the counter hands out. */
  predicate IdsBelow(rows: seq<Part>, nextId: int) {
    forall i :: 0 <= i < |rows| ==> 1 <= rows[i].id < nextId
  }

  predicate SerialsUnique(rows: seq<Part>) {
    forall i, j :: 0 <= i < j < |rows| ==> rows[i].serial != rows[j].serial
  }

  /** `db.query(Part).get(id)`: the position of the row with that id. */
  function Find(rows: seq<Part>, id: int): (r: Option<nat>)
    ensures r.Some? ==> r.value < |rows| && rows[r.value].id == id
    ensures r.None? <==> !HasPart(rows, id)
  {
    if rows == [] then None
    else if rows[0].id == id then Some(0)
    else
      match Find(rows[1..], id)
      case None =>
        assert forall i :: 1 <= i < |rows| ==> rows[i] == rows[1..][i - 1];
        None
      case Some(i) => Some(i + 1)
  }


  /** `filter(Part.serial == serial).first()` finds a row. */
  predicate SerialTaken(rows: seq<Part>, serial: string) {
    exists i :: 0 <= i < |rows| && rows[i].serial == serial
  }

  /** `filter(Part.serial == serial, Part.id != id).first()` finds a row. */
  predicate SerialTakenByOther(rows: seq<Part>, serial: string, id: int) {
    exists i :: 0 <= i < |rows| && rows[i].serial == serial && rows[i].id != id
  }

  /** Re-sending a part's own serial in a PATCH is never a conflict. */
  lemma KeepOwnSerial(rows: seq<Part>, i: int)
    requires SerialsUnique(rows) && 0 <= i < |rows|
    ensures !SerialTakenByOther(rows, rows[i].serial, rows[i].id)
  {
  }

  /** Removing the row at `i` removes exactly the part with its id. */
  lemma RemoveAtMember(rows: seq<Part>, i: int)
    requires IdsIncreasing(rows) && 0 <= i < |rows|
    ensures forall p :: p in rows[..i] + rows[i + 1..] <==> p in rows && p.id != rows[i].id
    ensures IdsIncreasing(rows[..i] + rows[i + 1..])
  {
    var rest := rows[..i] + rows[i + 1..];
    assert forall k :: 0 <= k < |rest| ==> rest[k] == rows[if k < i then k else k + 1];
    forall p | p in rows && p.id != rows[i].id ensures p in rest {
      var k :| 0 <= k < |rows| && rows[k] == p;
      assert k != i;
      if k < i { assert rest[k] == p; } else { assert rest[k - 1] == p; }
    }
  }

  // ---------------------------------------------------------------------
  // Listing

  /** The query parameters of `list_parts`; `None` is a parameter left out. */
  datatype PartFilter = PartFilter(
    status: Option<string>,
    tipoPieza: Option<string>,
    lote: Option<string>,
    fechaDesde: Option<Day>,
    fechaHasta: Option<Day>)

  /** Python truthiness of `str | None`: `None` and `""` both skip the filter. */
  predicate Given(o: Option<string>) {
    o.Some? && o.value != ""
  }

  /** `fecha_creacion >= fecha_desde`: the date compares as its midnight,
      so this keeps every part created on that day or later. */
  predicate CreatedFrom(p: Part, d: Day) {
    p.fechaCreacion >= MidnightOf(d)
  }

  /** `fecha_creacion <= fecha_hasta` as written: the date compares as its
      midnight, so only the first second of the last day is kept. */
  predicate CreatedUntilAsWritten(p: Part, d: Day)
    ensures CreatedUntilAsWritten(p, d) <==> DayOf(p.fechaCreacion) < d || p.fechaCreacion == MidnightOf(d)
  {
    DayBounds(p.fechaCreacion);
    p.fechaCreacion <= MidnightOf(d)
  }

  /** The inclusive upper bound the listing evidently means: created on
      that day or earlier. */
  predicate CreatedUntil(p: Part, d: Day) {
    DayOf(p.fechaCreacion) <= d
  }

  predicate Matches(f: PartFilter, p: Part) {
    && (Given(f.status) ==> p.status == f.status.value)
    && (Given(f.tipoPieza) ==> p.tipoPieza == f.tipoPieza.value)
    && (Given(f.lote) ==> p.lote == Some(f.lote.value))
    && (f.fechaDesde.Some? ==> CreatedFrom(p, f.fechaDesde.value))
    && (f.fechaHasta.Some? ==> CreatedUntil(p, f.fechaHasta.value))
  }

  /** One `query.filter(...)`: the rows that pass, in the same order. */
  function Select(rows: seq<Part>, keep: Part -> bool): seq<Part> {
    if rows == [] then []
    else (if keep(rows[0]) then [rows[0]] else []) + Select(rows[1..], keep)
  }

  /** A filter keeps exactly the rows that pass and keeps them in id order. */
  lemma {:induction false} SelectSpec(rows: seq<Part>, keep: Part -> bool)
    ensures forall p :: p in Select(rows, keep) <==> p in rows && keep(p)
    ensures IdsIncreasing(rows) ==> IdsIncreasing(Select(rows, keep))
  {
    if rows != [] {
      var rest := Select(rows[1..], keep);
      SelectSpec(rows[1..], keep);
      assert forall p :: p in rows <==> p == rows[0] || p in rows[1..];
      if IdsIncreasing(rows) {
        TailIncreasing(rows);
        if keep(rows[0]) {
          forall p | p in rest ensures rows[0].id < p.id {
            HeadBelowTail(rows, p);
          }
          ConsIncreasing(rows[0], rest);
        }
      }
    }
  }

  lemma TailIncreasing(rows: seq<Part>)
    requires rows != [] && IdsIncreasing(rows)
    ensures IdsIncreasing(rows[1..])
  {
    forall a, b | 0 <= a < b < |rows[1..]| ensures rows[1..][a].id < rows[1..][b].id {
      assert rows[1..][a] == rows[a + 1] && rows[1..][b] == rows[b + 1];
    }
  }

  lemma HeadBelowTail(rows: seq<Part>, p: Part)
    requires rows != [] && IdsIncreasing(rows) && p in rows[1..]
    ensures rows[0].id < p.id
  {
    var k :| 0 <= k < |rows[1..]| && rows[1..][k] == p;
    assert rows[k + 1] == p;
  }

  lemma ConsIncreasing(x: Part, rest: seq<Part>)
    requires IdsIncreasing(rest)
    requires forall p :: p in rest ==> x.id < p.id
    ensures IdsIncreasing([x] + rest)
  {
    var r := [x] + rest;
    forall a, b | 0 <= a < b < |r| ensures r[a].id < r[b].id {
      assert r[b] == rest[b - 1];
      if a > 0 { assert r[a] == rest[a - 1]; }
      else { assert r[b] in rest; }
    }
  }

  /** The lower date bound keeps whole days. */
  lemma CreatedFromWholeDays(p: Part, d: Day)
    ensures CreatedFrom(p, d) <==> DayOf(p.fechaCreacion) >= d
  {
    DayBounds(p.fechaCreacion);
  }

  /** The corrected upper bound keeps whole days: everything created
      before the next midnight. */
  lemma CreatedUntilWholeDays(p: Part, d: Day)
    ensures CreatedUntil(p, d) <==> p.fechaCreacion < MidnightOf(d + 1)
  {
    DayBounds(p.fechaCreacion);
  }

  lemma DayBounds(t: Timestamp)
    ensures MidnightOf(DayOf(t)) <= t < MidnightOf(DayOf(t) + 1)
  {
  }

  /** As written, a part created one hour into the last day of the range
      fails the upper bound although it was created on that day. */
  lemma UntilAsWrittenDropsLastDay()
    ensures var p := Part(1, "S-1", "T", Some("L"), "OK", MidnightOf(10) + 3600);
      !CreatedUntilAsWritten(p, 10) && CreatedUntil(p, 10)
  {
  }

  // ---------------------------------------------------------------------
  // The table

  class PartTable {
    var rows: seq<Part>
    var nextId: int

    ghost predicate Valid()
      reads this
    {
      && nextId >= 1
      && IdsIncreasing(rows)
      && IdsBelow(rows, nextId)
      && SerialsUnique(rows)
    }

    constructor ()
      ensures Valid() && rows == [] && nextId == 1
    {
      rows := [];
      nextId := 1;
    }

    /** `create_part` */
    method CreatePart(input: PartCreate, now: Timestamp) returns (r: Result<Part>)
      requires Valid()
      modifies this
      ensures Valid()
      ensures SerialTaken(old(rows), input.serial) ==>
        r == Err(Duplicate(SerialTakenDetail)) && rows == old(rows) && nextId == old(nextId)
      ensures !SerialTaken(old(rows), input.serial) ==>
        && r == Ok(Part(old(nextId), input.serial, input.tipoPieza, Some(input.lote), input.status, now))
        && rows == old(rows) + [r.value] && nextId == old(nextId) + 1
        && FitsPartOut(r.value)
    {
      if SerialTaken(rows, input.serial) {
        return Err(Duplicate(SerialTakenDetail));
      }
      var part := Part(nextId, input.serial, input.tipoPieza, Some(input.lote), input.status, now);
      rows := rows + [part];
      nextId := nextId + 1;
      r := Ok(part);
    }

    /** `get_part`: not-found, or the row as a `PartOut`. */
    method GetPart(id: int) returns (r: Result<Part>)
      ensures r.Ok? <==> HasPart(rows, id) && FitsPartOut(rows[Find(rows, id).value])
      ensures r.Ok? ==> r.value.id == id && r.value in rows
      ensures !HasPart(rows, id) ==> r == Err(NotFound(PartNotFoundDetail))
      ensures HasPart(rows, id) && !FitsPartOut(rows[Find(rows, id).value]) ==>
        r == Err(ServerError(ServerErrorDetail))
    {
      var found := Find(rows, id);
      if found.None? {
        return Err(NotFound(PartNotFoundDetail));
      }
      var part := rows[found.value];
      if !FitsPartOut(part) {
        return Err(ServerError(ServerErrorDetail));
      }
      r := Ok(part);
    }

    /** `update_part`: not-found first, then the serial check against the
        other parts, then one `setattr` per field sent and the commit. The
        response is built after the commit, so a PATCH that clears the lot
        is stored and still answered with a server error. */
    method UpdatePart(id: int, u: PartUpdate) returns (r: Result<Part>)
      requires Valid()
      modifies this
      ensures Valid()
      ensures nextId == old(nextId)
      ensures !HasPart(old(rows), id) ==> r == Err(NotFound(PartNotFoundDetail)) && rows == old(rows)
      ensures HasPart(old(rows), id) && u.serial.Set? && SerialTakenByOther(old(rows), u.serial.value, id) ==>
        r == Err(Duplicate(SerialOwnedDetail)) && rows == old(rows)
      ensures HasPart(old(rows), id) && !(u.serial.Set? && SerialTakenByOther(old(rows), u.serial.value, id)) ==>
        var i := Find(old(rows), id).value;
        && rows == old(rows)[i := Patch(old(rows)[i], u)]
        && (FitsPartOut(rows[i]) ==> r == Ok(rows[i]))
        && (!FitsPartOut(rows[i]) ==> r == Err(ServerError(ServerErrorDetail)))
    {
      var found := Find(rows, id);
      if found.None? {
        return Err(NotFound(PartNotFoundDetail));
      }
      var i := found.value;
      if u.serial.Set? && SerialTakenByOther(rows, u.serial.value, id) {
        return Err(Duplicate(SerialOwnedDetail));
      }
      var part := ApplyUpdate(rows[i], u);
      PatchKeepsValid(rows, i, u);
      rows := rows[i := part];
      if !FitsPartOut(part) {
        return Err(ServerError(ServerErrorDetail));
      }
      r := Ok(part);
    }

    /** `delete_part` */
    method DeletePart(id: int) returns (r: Result<()>)
      requires Valid()
      modifies this
      ensures Valid()
      ensures nextId == old(nextId)
      ensures !HasPart(old(rows), id) ==> r == Err(NotFound(PartNotFoundDetail)) && rows == old(rows)
      ensures HasPart(old(rows), id) ==>
        var i := Find(old(rows), id).value;
        r == Ok(()) && rows == old(rows)[..i] + old(rows)[i + 1..]
    {
      var found := Find(rows, id);
      if found.None? {
        return Err(NotFound(PartNotFoundDetail));
      }
      var i := found.value;
      RemoveAtKeepsValid(rows, i, nextId);
      rows := rows[..i] + rows[i + 1..];
      r := Ok(());
    }

    /** `list_parts`: the query narrowed by each filter given, then
        ordered by id; one selected part without a lot makes the whole
        `list[PartOut]` response a server error. */
    method ListParts(f: PartFilter) returns (r: Result<seq<Part>>)
      requires Valid()
      ensures r.Ok? <==> forall p :: p in rows && Matches(f, p) ==> FitsPartOut(p)
      ensures r.Ok? ==> (forall p :: p in r.value <==> p in rows && Matches(f, p)) && IdsIncreasing(r.value)
      ensures r.Err? ==> r.error == ServerError(ServerErrorDetail)
    {
      var query := Query(rows, f);
      if forall p | p in query :: FitsPartOut(p) {
        r := Ok(query);
      } else {
        r := Err(ServerError(ServerErrorDetail));
      }
    }
  }

  /** The query `list_parts` builds: one `filter` per filter given, over
      rows already in id order. */
  method Query(rows: seq<Part>, f: PartFilter) returns (result: seq<Part>)
    requires IdsIncreasing(rows)
    ensures forall p :: p in result <==> p in rows && Matches(f, p)
    ensures IdsIncreasing(result)
  {
    var query := rows;
    if Given(f.status) {
      var keep := (p: Part) => p.status == f.status.value;
      SelectSpec(query, keep);
      query := Select(query, keep);
    }
    if Given(f.tipoPieza) {
      var keep := (p: Part) => p.tipoPieza == f.tipoPieza.value;
      SelectSpec(query, keep);
      query := Select(query, keep);
    }
    if Given(f.lote) {
      var keep := (p: Part) => p.lote == Some(f.lote.value);
      SelectSpec(query, keep);
      query := Select(query, keep);
    }
    if f.fechaDesde.Some? {
      var keep := (p: Part) => CreatedFrom(p, f.fechaDesde.value);
      SelectSpec(query, keep);
      query := Select(query, keep);
    }
    if f.fechaHasta.Some? {
      var keep := (p: Part) => CreatedUntil(p, f.fechaHasta.value);
      SelectSpec(query, keep);
      query := Select(query, keep);
    }
    result := query;
  }

  /** `data = part_in.model_dump(exclude_unset=True)` followed by
      `for field, value in data.items(): setattr(part, field, value)`. */
  method ApplyUpdate(p: Part, u: PartUpdate) returns (q: Part)
    ensures q == Patch(p, u)
  {
    var data := Dump(u);
    q := p;
    for k := 0 to |data|
      invariant q == ApplyAll(p, data[..k])
    {
      assert data[..k + 1][..k] == data[..k];
      q := Assign(q, data[k]);
    }
    assert data[..|data|] == data;
    DumpIsPatch(p, u);
  }

  /** Replacing row `i` by its patch keeps the table valid when the new
      serial belongs to no other part. */
  lemma PatchKeepsValid(rows: seq<Part>, i: int, u: PartUpdate)
    requires IdsIncreasing(rows) && SerialsUnique(rows) && 0 <= i < |rows|
    requires u.serial.Set? ==> !SerialTakenByOther(rows, u.serial.value, rows[i].id)
    ensures IdsIncreasing(rows[i := Patch(rows[i], u)])
    ensures SerialsUnique(rows[i := Patch(rows[i], u)])
  {
    var next := rows[i := Patch(rows[i], u)];
    forall a, b | 0 <= a < b < |next| ensures next[a].serial != next[b].serial {
      if a == i && u.serial.Set? {
        assert rows[b].id != rows[i].id;
      } else if b == i && u.serial.Set? {
        assert rows[a].id != rows[i].id;
      }
    }
  }

  lemma RemoveAtKeepsValid(rows: seq<Part>, i: int, nextId: int)
    requires IdsIncreasing(rows) && SerialsUnique(rows) && 0 <= i < |rows|
    requires IdsBelow(rows, nextId)
    ensures IdsIncreasing(rows[..i] + rows[i + 1..])
    ensures SerialsUnique(rows[..i] + rows[i + 1..])
    ensures IdsBelow(rows[..i] + rows[i + 1..], nextId)
  {
    var rest := rows[..i] + rows[i + 1..];
    assert forall k :: 0 <= k < |rest| ==> rest[k] == rows[if k < i then k else k + 1];
  }
}
