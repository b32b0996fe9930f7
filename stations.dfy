/** The station endpoints of app/api/stations.py over an in-memory station
    table, kept in id order with an autoincrement counter. Only creation
    checks the name; an update may give a station the name of another. */
module Stations {
  import opened Common
  import opened Records

  const NameTakenDetail: string := "Ya existe una estación con ese nombre."
  const StationNotFoundDetail: string := "Estación no encontrada."

  /** `StationCreate`: `linea` defaults to `None`. */
  datatype StationCreate = StationCreate(nombre: string, tipo: string, linea: Option<string>)

  /** `StationUpdate` after parsing. `linea` is a nullable column, so a
      PATCH may also send it as null and clear it: `Set(None)`. */
  datatype StationUpdate = StationUpdate(
    nombre: Field<string>,
    tipo: Field<string>,
    linea: Field<Option<string>>)

  /** One `setattr(station, field, value)`. */
  datatype StationAssign =
    | SetNombre(nombre: string)
    | SetTipo(tipo: string)
    | SetLinea(linea: Option<string>)

  /** `model_dump(exclude_unset=True)` in declaration order. */
  function Dump(u: StationUpdate): seq<StationAssign> {
    (if u.nombre.Set? then [SetNombre(u.nombre.value)] else [])
    + (if u.tipo.Set? then [SetTipo(u.tipo.value)] else [])
    + (if u.linea.Set? then [SetLinea(u.linea.value)] else [])
  }

  function Assign(s: Station, a: StationAssign): Station {
    match a
    case SetNombre(n) => s.(nombre := n)
    case SetTipo(t) => s.(tipo := t)
    case SetLinea(l) => s.(linea := l)
  }

  function ApplyAll(s: Station, d: seq<StationAssign>): Station
    decreases |d|
  {
    if d == [] then s else Assign(ApplyAll(s, d[..|d| - 1]), d[|d| - 1])
  }

  /** The reference meaning of a PATCH: each field sent replaces the
      stored one, the id and every other field stay. */
  function Patch(s: Station, u: StationUpdate): Station {
    Station(
      s.id,
      if u.nombre.Set? then u.nombre.value else s.nombre,
      if u.tipo.Set? then u.tipo.value else s.tipo,
      if u.linea.Set? then u.linea.value else s.linea)
  }

  lemma {:induction false} ApplyAllAppend(s: Station, d1: seq<StationAssign>, d2: seq<StationAssign>)
    decreases |d2|
    ensures ApplyAll(s, d1 + d2) == ApplyAll(ApplyAll(s, d1), d2)
  {
    if d2 == [] {
      assert d1 + d2 == d1;
    } else {
      var init := d2[..|d2| - 1];
      assert (d1 + d2)[..|d1 + d2| - 1] == d1 + init;
      ApplyAllAppend(s, d1, init);
    }
  }

  /** The `setattr` loop over the dumped fields performs the field-wise PATCH. */
  lemma DumpIsPatch(s: Station, u: StationUpdate)
    ensures ApplyAll(s, Dump(u)) == Patch(s, u)
  {
    var d1 := if u.nombre.Set? then [SetNombre(u.nombre.value)] else [];
    var d2 := if u.tipo.Set? then [SetTipo(u.tipo.value)] else [];
    var d3 := if u.linea.Set? then [SetLinea(u.linea.value)] else [];
    ApplyAllAppend(s, d1 + d2, d3);
    ApplyAllAppend(s, d1, d2);
    assert [] + d1 == d1;
    ApplyAllAppend(s, [], d1);
  }

  /** `data = station_in.model_dump(exclude_unset=True)` followed by the
      `setattr` loop. */
  method ApplyUpdate(s: Station, u: StationUpdate) returns (q: Station)
    ensures q == Patch(s, u)
  {
    var data := Dump(u);
    q := s;
    for k := 0 to |data|
      invariant q == ApplyAll(s, data[..k])
    {
      assert data[..k + 1][..k] == data[..k];
      q := Assign(q, data[k]);
    }
    assert data[..|data|] == data;
    DumpIsPatch(s, u);
  }

  predicate IdsIncreasing(rows: seq<Station>) {
    forall i, j :: 0 <= i < j < |rows| ==> rows[i].id < rows[j].id
  }

  predicate IdsBelow(rows: seq<Station>, nextId: int) {
    forall i :: 0 <= i < |rows| ==> 1 <= rows[i].id < nextId
  }

  /** `filter(Station.nombre == nombre).first()` finds a row. */
  predicate NameTaken(rows: seq<Station>, nombre: string) {
    exists i :: 0 <= i < |rows| && rows[i].nombre == nombre
  }

  predicate NamesUnique(rows: seq<Station>) {
    forall i, j :: 0 <= i < j < |rows| ==> rows[i].nombre != rows[j].nombre
  }

  /** `db.query(Station).get(id)`: the position of the row with that id. */
  function Find(rows: seq<Station>, id: int): (r: Option<nat>)
    ensures r.Some? ==> r.value < |rows| && rows[r.value].id == id
    ensures r.None? <==> !HasStation(rows, id)
  {
    if rows == [] then None
    else if rows[0].id == id then Some(0)
    else
      match Find(rows[1..], id)
      case None =>
        assert forall i :: 1 <= i < |rows| ==> rows[i] == rows[1..][i - 1];
        None
      case Some(i) => Some(i + 1)
  }

  /** Creating never introduces a second station of the same name. */
  lemma CreateKeepsNamesUnique(rows: seq<Station>, s: Station)
    requires NamesUnique(rows) && !NameTaken(rows, s.nombre)
    ensures NamesUnique(rows + [s])
  {
    var next := rows + [s];
    forall i, j | 0 <= i < j < |next| ensures next[i].nombre != next[j].nombre {
      if j == |rows| {
        assert next[i] == rows[i];
      } else {
        assert next[i] == rows[i] && next[j] == rows[j];
      }
    }
  }

  /** An update does not keep names unique: renaming station 2 to the name
      of station 1 is accepted. */
  lemma UpdateMayDuplicateName()
    ensures var rows := [Station(1, "A", "ENSAMBLE", None), Station(2, "B", "PRUEBA", None)];
      && NamesUnique(rows)
      && !NamesUnique(rows[1 := Patch(rows[1], StationUpdate(Set("A"), Unset, Unset))])
  {
    var rows := [Station(1, "A", "ENSAMBLE", None), Station(2, "B", "PRUEBA", None)];
    assert "A"[0] != "B"[0];
    var next := rows[1 := Patch(rows[1], StationUpdate(Set("A"), Unset, Unset))];
    assert next[0].nombre == "A" && next[1].nombre == "A";
  }

  lemma RemoveAtKeepsIds(rows: seq<Station>, i: int, nextId: int)
    requires IdsIncreasing(rows) && IdsBelow(rows, nextId) && 0 <= i < |rows|
    ensures IdsIncreasing(rows[..i] + rows[i + 1..])
    ensures IdsBelow(rows[..i] + rows[i + 1..], nextId)
    ensures forall s :: s in rows[..i] + rows[i + 1..] <==> s in rows && s.id != rows[i].id
  {
    var rest := rows[..i] + rows[i + 1..];
    assert forall k :: 0 <= k < |rest| ==> rest[k] == rows[if k < i then k else k + 1];
    forall s | s in rows && s.id != rows[i].id ensures s in rest {
      var k :| 0 <= k < |rows| && rows[k] == s;
      if k < i { assert rest[k] == s; } else { assert rest[k - 1] == s; }
    }
  }

  class StationTable {
    var rows: seq<Station>
    var nextId: int

    /** Ids only: names are not kept unique, see `UpdateMayDuplicateName`. */
    ghost predicate Valid()
      reads this
    {
      nextId >= 1 && IdsIncreasing(rows) && IdsBelow(rows, nextId)
    }

    constructor ()
      ensures Valid() && rows == [] && nextId == 1
    {
      rows := [];
      nextId := 1;
    }

    /** `create_station` */
    method CreateStation(input: StationCreate) returns (r: Result<Station>)
      requires Valid()
      modifies this
      ensures Valid()
      ensures NameTaken(old(rows), input.nombre) ==>
        r == Err(Duplicate(NameTakenDetail)) && rows == old(rows) && nextId == old(nextId)
      ensures !NameTaken(old(rows), input.nombre) ==>
        && r == Ok(Station(old(nextId), input.nombre, input.tipo, input.linea))
        && rows == old(rows) + [r.value] && nextId == old(nextId) + 1
    {
      if NameTaken(rows, input.nombre) {
        return Err(Duplicate(NameTakenDetail));
      }
      var station := Station(nextId, input.nombre, input.tipo, input.linea);
      rows := rows + [station];
      nextId := nextId + 1;
      r := Ok(station);
    }

    /** `list_stations`: every station, ordered by id. */
    method ListStations() returns (result: seq<Station>)
      requires Valid()
      ensures result == rows
      ensures IdsIncreasing(result)
    {
      result := rows;
    }

    /** `get_station` */
    method GetStation(id: int) returns (r: Result<Station>)
      ensures r.Ok? <==> HasStation(rows, id)
      ensures r.Ok? ==> r.value.id == id && r.value in rows
      ensures r.Err? ==> r.error == NotFound(StationNotFoundDetail)
    {
      var found := Find(rows, id);
      if found.None? {
        return Err(NotFound(StationNotFoundDetail));
      }
      r := Ok(rows[found.value]);
    }

    /** `update_station`: not-found, otherwise one `setattr` per field sent. */
    method UpdateStation(id: int, u: StationUpdate) returns (r: Result<Station>)
      requires Valid()
      modifies this
      ensures Valid()
      ensures nextId == old(nextId)
      ensures !HasStation(old(rows), id) ==> r == Err(NotFound(StationNotFoundDetail)) && rows == old(rows)
      ensures HasStation(old(rows), id) ==>
        var i := Find(old(rows), id).value;
        r == Ok(Patch(old(rows)[i], u)) && rows == old(rows)[i := r.value]
    {
      var found := Find(rows, id);
      if found.None? {
        return Err(NotFound(StationNotFoundDetail));
      }
      var i := found.value;
      var station := ApplyUpdate(rows[i], u);
      rows := rows[i := station];
      r := Ok(station);
    }

    /** `delete_station` */
    method DeleteStation(id: int) returns (r: Result<()>)
      requires Valid()
      modifies this
      ensures Valid()
      ensures nextId == old(nextId)
      ensures !HasStation(old(rows), id) ==> r == Err(NotFound(StationNotFoundDetail)) && rows == old(rows)
      ensures HasStation(old(rows), id) ==>
        var i := Find(old(rows), id).value;
        r == Ok(()) && rows == old(rows)[..i] + old(rows)[i + 1..]
    {
      var found := Find(rows, id);
      if found.None? {
        return Err(NotFound(StationNotFoundDetail));
      }
      var i := found.value;
      RemoveAtKeepsIds(rows, i, nextId);
      rows := rows[..i] + rows[i + 1..];
      r := Ok(());
    }
  }
}
