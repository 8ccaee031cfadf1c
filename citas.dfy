/** The in-memory appointment store of backend/tests/test_logic.py: a list of
    appointment records that `crear_cita`, `editar_cita` and `eliminar_cita`
    change in place and `get_citas` reads. The clock (`datetime.now`) and
    `uuid.uuid4()` are parameters `now` and `newId`. */
module Citas {
  import opened Common

  /** The state every appointment starts in. */
  const Programada: string := "programada"

  const MsgCreada: string := "Cita creada exitosamente"
  const MsgDatosInvalidos: string := "Datos invalidos o fecha pasada"
  const MsgActualizada: string := "Cita actualizada"
  const MsgEliminada: string := "Cita eliminada"
  const MsgNoEncontrada: string := "Cita no encontrada"

  /** One appointment record (a dict with exactly these keys in the source). */
  datatype Cita = Cita(
    id: Id,
    usuarioId: Id,
    nombreCita: string,
    fechaHora: Timestamp,
    estado: string,
    createdAt: Timestamp,
    updatedAt: Timestamp)

  /** The `nuevos_datos` dict of `editar_cita`: each declared field is either
      supplied (Some) or absent (None). */
  datatype Patch = Patch(
    id: Option<Id>,
    usuarioId: Option<Id>,
    nombreCita: Option<string>,
    fechaHora: Option<Timestamp>,
    estado: Option<string>,
    createdAt: Option<Timestamp>,
    updatedAt: Option<Timestamp>)

  datatype CrearResult =
    | Creada(mensaje: string, cita: Cita, total: nat)
    | CrearError(error: string)

  datatype EditarResult =
    | Actualizada(mensaje: string, cita: Cita)
    | EditarError(error: string)

  datatype EliminarResult =
    | Eliminada(mensaje: string, total: nat)
    | EliminarError(error: string)

  /** No record in `s` carries `id`. */
  predicate Absent(s: seq<Cita>, id: Id) {
    forall k :: 0 <= k < |s| ==> s[k].id != id
  }

  /** No two records in `s` share an id. */
  predicate UniqueIds(s: seq<Cita>) {
    forall j, k :: 0 <= j < k < |s| ==> s[j].id != s[k].id
  }

  /** Where the scan `for cita in citas: if cita["id"] == id_cita` stops:
      the position of the first record carrying `id`, if any. */
  function IndexOfId(s: seq<Cita>, id: Id): (r: Option<nat>)
    ensures r.None? <==> Absent(s, id)
    ensures r.Some? ==> r.value < |s| && s[r.value].id == id
    ensures r.Some? ==> forall j :: 0 <= j < r.value ==> s[j].id != id
  {
    if |s| == 0 then None
    else if s[0].id == id then Some(0)
    else match IndexOfId(s[1..], id)
      case None => None
      case Some(k) => Some(k + 1)
  }

  /** The record `crear_cita` builds; both timestamps come from `now`. */
  function NewCita(newId: Id, usuarioId: Id, nombreCita: string, fechaHora: Timestamp, now: Timestamp): Cita {
    Cita(newId, usuarioId, nombreCita, fechaHora, Programada, now, now)
  }

  /** `cita.update(nuevos_datos)` followed by `cita["updated_at"] = now`. */
  function Merge(c: Cita, p: Patch, now: Timestamp): (m: Cita)
    ensures p.id.Some? ==> m.id == p.id.value
    ensures p.id.None? ==> m.id == c.id
    ensures p.usuarioId.Some? ==> m.usuarioId == p.usuarioId.value
    ensures p.usuarioId.None? ==> m.usuarioId == c.usuarioId
    ensures p.nombreCita.Some? ==> m.nombreCita == p.nombreCita.value
    ensures p.nombreCita.None? ==> m.nombreCita == c.nombreCita
    ensures p.fechaHora.Some? ==> m.fechaHora == p.fechaHora.value
    ensures p.fechaHora.None? ==> m.fechaHora == c.fechaHora
    ensures p.estado.Some? ==> m.estado == p.estado.value
    ensures p.estado.None? ==> m.estado == c.estado
    ensures p.createdAt.Some? ==> m.createdAt == p.createdAt.value
    ensures p.createdAt.None? ==> m.createdAt == c.createdAt
    ensures m.updatedAt == now
  {
    Cita(
      Or(p.id, c.id),
      Or(p.usuarioId, c.usuarioId),
      Or(p.nombreCita, c.nombreCita),
      Or(p.fechaHora, c.fechaHora),
      Or(p.estado, c.estado),
      Or(p.createdAt, c.createdAt),
      now)
  }

  /** The patch `{}`: no field supplied. */
  const EmptyPatch: Patch := Patch(None, None, None, None, None, None, None)

  /** An edit with an empty patch still stamps the record, and changes
      nothing but `updated_at`. */
  lemma MergeEmptyPatch(c: Cita, now: Timestamp)
    ensures Merge(c, EmptyPatch, now) == c.(updatedAt := now)
  {
  }

  /** An `updated_at` supplied in the patch is always overwritten by the clock. */
  lemma MergeIgnoresPatchedUpdatedAt(c: Cita, p: Patch, t: Timestamp, now: Timestamp)
    ensures Merge(c, p.(updatedAt := Some(t)), now) == Merge(c, p, now)
  {
  }

  /** Appending a record whose id is fresh keeps the ids unique. */
  lemma AppendFreshKeepsUnique(s: seq<Cita>, c: Cita)
    requires UniqueIds(s) && Absent(s, c.id)
    ensures UniqueIds(s + [c])
  {
  }

  /** Removing the record at `i` from a list with unique ids keeps them
      unique and leaves no record with the removed id. */
  lemma RemoveAtKeepsUnique(s: seq<Cita>, i: nat)
    requires UniqueIds(s) && i < |s|
    ensures UniqueIds(s[..i] + s[i + 1..])
    ensures Absent(s[..i] + s[i + 1..], s[i].id)
  {
  }

  /** Replacing record `i` by a merge whose patch leaves `id` out, supplies
      the record's own id, or sets an id no record carries, keeps the ids
      unique. */
  lemma MergeAtKeepsUnique(s: seq<Cita>, i: nat, p: Patch, now: Timestamp)
    requires UniqueIds(s) && i < |s|
    requires p.id.None? || p.id == Some(s[i].id) || Absent(s, p.id.value)
    ensures UniqueIds(s[i := Merge(s[i], p, now)])
  {
  }

  /** An appointment list of the store: `citas_local` of the tests, the list
      every operation receives and changes in place. */
  class CitaList {
    var citas: seq<Cita>

    constructor (initial: seq<Cita>)
      ensures citas == initial
    {
      citas := initial;
    }

    /** `get_citas`: the whole list, unmodified. */
    method GetCitas() returns (r: seq<Cita>)
      ensures r == citas
    {
      r := citas;
    }

    /** `crear_cita`: rejects an empty name or a time strictly before `now`,
        otherwise appends one new record in state "programada". */
    method CrearCita(usuarioId: Id, nombreCita: string, fechaHora: Timestamp, now: Timestamp, newId: Id)
      returns (r: CrearResult)
      modifies this
      ensures nombreCita == [] || fechaHora < now ==>
        r == CrearError(MsgDatosInvalidos) && citas == old(citas)
      ensures nombreCita != [] && now <= fechaHora ==>
        var nueva := NewCita(newId, usuarioId, nombreCita, fechaHora, now);
        citas == old(citas) + [nueva] && r == Creada(MsgCreada, nueva, |citas|)
      ensures UniqueIds(old(citas)) && Absent(old(citas), newId) ==> UniqueIds(citas)
    {
      if nombreCita == [] || fechaHora < now {
        return CrearError(MsgDatosInvalidos);
      }
      var nueva := NewCita(newId, usuarioId, nombreCita, fechaHora, now);
      if UniqueIds(citas) && Absent(citas, newId) {
        AppendFreshKeepsUnique(citas, nueva);
      }
      citas := citas + [nueva];
      r := Creada(MsgCreada, nueva, |citas|);
    }

    /** `editar_cita`: merges the patch into the first record carrying
        `idCita` and stamps it with `now`; reports an error otherwise. */
    method EditarCita(idCita: Id, nuevosDatos: Patch, now: Timestamp) returns (r: EditarResult)
      modifies this
      ensures IndexOfId(old(citas), idCita).None? ==>
        r == EditarError(MsgNoEncontrada) && citas == old(citas)
      ensures IndexOfId(old(citas), idCita).Some? ==>
        var i := IndexOfId(old(citas), idCita).value;
        citas == old(citas)[i := Merge(old(citas)[i], nuevosDatos, now)] &&
        r == Actualizada(MsgActualizada, citas[i])
      ensures UniqueIds(old(citas)) &&
              (nuevosDatos.id.None? || nuevosDatos.id == Some(idCita) || Absent(old(citas), nuevosDatos.id.value)) ==>
        UniqueIds(citas)
    {
      for i := 0 to |citas|
        invariant citas == old(citas)
        invariant forall j :: 0 <= j < i ==> citas[j].id != idCita
      {
        if citas[i].id == idCita {
          if UniqueIds(citas) &&
             (nuevosDatos.id.None? || nuevosDatos.id == Some(idCita) || Absent(citas, nuevosDatos.id.value)) {
            MergeAtKeepsUnique(citas, i, nuevosDatos, now);
          }
          citas := citas[i := Merge(citas[i], nuevosDatos, now)];
          return Actualizada(MsgActualizada, citas[i]);
        }
      }
      return EditarError(MsgNoEncontrada);
    }

    /** `eliminar_cita`: removes the first record carrying `idCita` (through
        Python's remove-first-equal) and reports the new size. */
    method EliminarCita(idCita: Id) returns (r: EliminarResult)
      modifies this
      ensures IndexOfId(old(citas), idCita).None? ==>
        r == EliminarError(MsgNoEncontrada) && citas == old(citas)
      ensures IndexOfId(old(citas), idCita).Some? ==>
        var i := IndexOfId(old(citas), idCita).value;
        citas == old(citas)[..i] + old(citas)[i + 1..] &&
        |citas| == |old(citas)| - 1 &&
        r == Eliminada(MsgEliminada, |citas|)
      ensures UniqueIds(old(citas)) ==> UniqueIds(citas) && Absent(citas, idCita)
    {
      for i := 0 to |citas|
        invariant citas == old(citas)
        invariant forall j :: 0 <= j < i ==> citas[j].id != idCita
      {
        if citas[i].id == idCita {
          var cita := citas[i];
          RemoveFirstAt(citas, cita, i);
          if UniqueIds(citas) {
            RemoveAtKeepsUnique(citas, i);
          }
          citas := RemoveFirst(citas, cita);
          return Eliminada(MsgEliminada, |citas|);
        }
      }
      return EliminarError(MsgNoEncontrada);
    }
  }

  /** The two seeded records of `citas_mock`, run through the scenarios of
      the test functions: a valid and an invalid creation, an edit of an
      existing and of a missing id, a deletion of an existing and of a
      missing id. */
  method Scenarios(id0: Id, id1: Id, u0: Id, u1: Id, now: Timestamp, newId: Id, missing: Id)
    requires id0 != id1 && missing != id0 && missing != id1
  {
    var seed := [
      Cita(id0, u0, "Chequeo general", now + 10, Programada, now, now),
      Cita(id1, u1, "Revisión anual", now + 20, Programada, now, now)];

    var store := new CitaList(seed);
    var todas := store.GetCitas();
    assert todas[0].estado == Programada;

    var creada := store.CrearCita(u0, "Medicina General", now + 2, now, newId);
    assert creada.Creada? && creada.total == |store.citas| == 3;

    store := new CitaList(seed);
    var invalida := store.CrearCita(u0, "", now - 1, now, newId);
    assert invalida.CrearError? && store.citas == seed;

    store := new CitaList(seed);
    var cancelar := Patch(None, None, None, None, Some("cancelada"), None, None);
    assert IndexOfId(seed, id0) == Some(0);
    var editada := store.EditarCita(id0, cancelar, now + 1);
    assert editada.Actualizada? && editada.cita.estado == "cancelada";
    assert editada.cita.updatedAt == now + 1;

    store := new CitaList(seed);
    assert Absent(seed, missing);
    var sinCita := store.EditarCita(missing, cancelar, now + 1);
    assert sinCita.EditarError? && store.citas == seed;

    store := new CitaList(seed);
    var eliminada := store.EliminarCita(id0);
    assert eliminada.Eliminada? && eliminada.total == 1;

    store := new CitaList(seed);
    var noEliminada := store.EliminarCita(missing);
    assert noEliminada.EliminarError? && store.citas == seed;
  }
}
