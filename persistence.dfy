/**
 * An in-memory stand-in for the remote store the screens write to. Every
 * remote call either succeeds as a whole or fails as a whole; the caller
 * passes a `fail` flag that decides which. An update whose filter matches no
 * row succeeds and changes nothing, as a filtered update does.
 *
 * `Tables` is the value of all tables at one moment; the `With…` functions are the
 * writes on that value, and the `Store` methods perform them in place.
 */
module Persistence {
  import opened Base
  import opened Database

  datatype Tables = Tables(
    cerdas: map<Id, CerdaRow>,
    eventos: seq<Evento>,
    incidencias: seq<Incidencia>,
    verracos: map<Id, Verraco>,
    profiles: seq<Profile>,
    userRoles: seq<UserRole>,
    nextId: Id)

  /** Keyed rows sit under their own id, and every id in use was handed out before `nextId`. */
  predicate ValidDb(db: Tables) {
    && (forall k :: k in db.cerdas ==> k < db.nextId && db.cerdas[k].id == k)
    && (forall k :: k in db.verracos ==> k < db.nextId && db.verracos[k].id == k)
    && (forall i :: 0 <= i < |db.eventos| ==> db.eventos[i].id < db.nextId)
    && (forall i :: 0 <= i < |db.incidencias| ==> db.incidencias[i].id < db.nextId)
    && (forall i :: 0 <= i < |db.userRoles| ==> db.userRoles[i].id < db.nextId)
  }

  /** The tables a form that records a sow's event never writes. */
  predicate SideTablesSame(a: Tables, b: Tables) {
    a.incidencias == b.incidencias && a.verracos == b.verracos && a.profiles == b.profiles && a.userRoles == b.userRoles
  }

  /** `b` holds the same sows as `a`, and every sow other than `id` is as it was. */
  predicate OnlySowChanged(a: map<Id, CerdaRow>, b: map<Id, CerdaRow>, id: Id) {
    a.Keys == b.Keys && forall k :: k in a && k != id ==> b[k] == a[k]
  }

  /** Writing a row back under its own key leaves the table as it was. */
  lemma RewriteSameKey<K, V>(m: map<K, V>, k: K)
    requires k in m
    ensures m[k := m[k]] == m
  {
  }

  /** Insert into the events table; the store gives the row a fresh id. */
  function WithEvento(db: Tables, e: Evento): (r: Tables)
    ensures r.cerdas == db.cerdas && SideTablesSame(db, r)
    ensures |r.eventos| == |db.eventos| + 1 && r.eventos[..|db.eventos|] == db.eventos
    ensures r.eventos[|db.eventos|] == e.(id := db.nextId)
    ensures ValidDb(db) ==> ValidDb(r) && forall i :: 0 <= i < |db.eventos| ==> r.eventos[i].id != db.nextId
  {
    db.(eventos := db.eventos + [e.(id := db.nextId)], nextId := db.nextId + 1)
  }

  /** `update({ estado }).eq('id', id)` on the sows table: that sow's state and nothing else. */
  function WithEstado(db: Tables, id: Id, e: EstadoCerda): (r: Tables)
    ensures r.eventos == db.eventos && r.nextId == db.nextId && SideTablesSame(db, r)
    ensures OnlySowChanged(db.cerdas, r.cerdas, id)
    ensures id in db.cerdas ==> r.cerdas[id] == db.cerdas[id].(estado := Some(e))
    ensures ValidDb(db) ==> ValidDb(r)
  {
    if id in db.cerdas then db.(cerdas := db.cerdas[id := db.cerdas[id].(estado := Some(e))]) else db
  }

  /** `update({ estado, paridad }).eq('id', id)` on the sows table: those two columns of that sow. */
  function WithEstadoParidad(db: Tables, id: Id, e: EstadoCerda, p: Option<int>): (r: Tables)
    ensures r.eventos == db.eventos && r.nextId == db.nextId && SideTablesSame(db, r)
    ensures OnlySowChanged(db.cerdas, r.cerdas, id)
    ensures id in db.cerdas ==> r.cerdas[id] == db.cerdas[id].(estado := Some(e), paridad := p)
    ensures ValidDb(db) ==> ValidDb(r)
  {
    if id in db.cerdas then db.(cerdas := db.cerdas[id := db.cerdas[id].(estado := Some(e), paridad := p)]) else db
  }

  /** Some sow other than `except` already uses `codigo` (the column is unique). */
  predicate CodigoTaken(db: Tables, codigo: string, except: Option<Id>) {
    exists k :: k in db.cerdas && Some(k) != except && db.cerdas[k].codigo == codigo
  }

  /** No two sows share a code. */
  predicate UniqueCodigos(db: Tables) {
    forall j, k :: j in db.cerdas && k in db.cerdas && j != k ==> db.cerdas[j].codigo != db.cerdas[k].codigo
  }

  /** The fields the administrative edit writes. */
  datatype CerdaEdit = CerdaEdit(
    codigo: string,
    nombre: Option<string>,
    nave: Option<string>,
    origen: Option<string>,
    paridad: int,
    estado: EstadoCerda,
    activa: bool)

  /** The administrative update: the seven edited columns of one sow; the history means are kept. */
  function WithCerdaEdit(db: Tables, id: Id, f: CerdaEdit): (r: Tables)
    ensures r.eventos == db.eventos && r.nextId == db.nextId && SideTablesSame(db, r)
    ensures OnlySowChanged(db.cerdas, r.cerdas, id)
    ensures id in db.cerdas ==>
      var c := r.cerdas[id];
      && c.codigo == f.codigo && c.nombre == f.nombre && c.nave == f.nave && c.origen == f.origen
      && c.paridad == Some(f.paridad) && c.estado == Some(f.estado) && c.activa == Some(f.activa)
      && c.id == db.cerdas[id].id && c.medios == db.cerdas[id].medios && c.updatedAt == db.cerdas[id].updatedAt
    ensures ValidDb(db) ==> ValidDb(r)
  {
    if id in db.cerdas then
      db.(cerdas := db.cerdas[id := db.cerdas[id].(
        codigo := f.codigo, nombre := f.nombre, nave := f.nave, origen := f.origen,
        paridad := Some(f.paridad), estado := Some(f.estado), activa := Some(f.activa))])
    else db
  }

  /** A newly registered sow: the given fields, the rest at the column defaults. */
  function NewCerda(id: Id, codigo: string, nombre: Option<string>, origen: Option<string>, nave: Option<string>): CerdaRow {
    CerdaRow(id, codigo, nombre, Some(EnServicio), Some(0), origen, nave, None, Some(true), None)
  }

  /** Insert into the sows table under a fresh id. */
  function WithCerda(db: Tables, codigo: string, nombre: Option<string>, origen: Option<string>, nave: Option<string>): (r: Tables)
    ensures r.eventos == db.eventos && SideTablesSame(db, r)
    ensures r.cerdas.Keys == db.cerdas.Keys + {db.nextId} && r.nextId == db.nextId + 1
    ensures r.cerdas[db.nextId] == NewCerda(db.nextId, codigo, nombre, origen, nave)
    ensures forall k :: k in db.cerdas && k != db.nextId ==> r.cerdas[k] == db.cerdas[k]
    ensures ValidDb(db) ==> ValidDb(r) && db.nextId !in db.cerdas
  {
    db.(cerdas := db.cerdas[db.nextId := NewCerda(db.nextId, codigo, nombre, origen, nave)], nextId := db.nextId + 1)
  }

  /** The events table after `update({ fecha, notas }).eq('id', id)`. */
  function EventosWithEdit(es: seq<Evento>, id: Id, fecha: Day, notas: Option<string>): (r: seq<Evento>)
    ensures |r| == |es|
    ensures forall i :: 0 <= i < |r| ==> r[i] == if es[i].id == id then es[i].(fecha := fecha, notas := notas) else es[i]
  {
    seq(|es|, i requires 0 <= i < |es| => if es[i].id == id then es[i].(fecha := fecha, notas := notas) else es[i])
  }

  function WithEventoEdit(db: Tables, id: Id, fecha: Day, notas: Option<string>): (r: Tables)
    ensures r.cerdas == db.cerdas && r.nextId == db.nextId && SideTablesSame(db, r)
    ensures ValidDb(db) ==> ValidDb(r)
  {
    db.(eventos := EventosWithEdit(db.eventos, id, fecha, notas))
  }

  /** Insert into the incidents table; a new incident is not resolved. */
  function WithIncidencia(db: Tables, cerdaId: Id, usuarioId: Id, texto: string, fechaHora: Instant): (r: Tables)
    ensures r.cerdas == db.cerdas && r.eventos == db.eventos
    ensures r.verracos == db.verracos && r.profiles == db.profiles && r.userRoles == db.userRoles
    ensures |r.incidencias| == |db.incidencias| + 1 && r.incidencias[..|db.incidencias|] == db.incidencias
    ensures r.incidencias[|db.incidencias|] == Incidencia(db.nextId, cerdaId, usuarioId, fechaHora, texto, false)
    ensures ValidDb(db) ==> ValidDb(r)
  {
    db.(incidencias := db.incidencias + [Incidencia(db.nextId, cerdaId, usuarioId, fechaHora, texto, false)],
        nextId := db.nextId + 1)
  }

  /** The incidents table after `update({ resuelta }).eq('id', id)`. */
  function IncidenciasWithResuelta(rows: seq<Incidencia>, id: Id, resuelta: bool): (r: seq<Incidencia>)
    ensures |r| == |rows|
    ensures forall i :: 0 <= i < |r| ==> r[i] == if rows[i].id == id then rows[i].(resuelta := resuelta) else rows[i]
  {
    seq(|rows|, i requires 0 <= i < |rows| => if rows[i].id == id then rows[i].(resuelta := resuelta) else rows[i])
  }

  function WithResuelta(db: Tables, id: Id, resuelta: bool): (r: Tables)
    ensures r.cerdas == db.cerdas && r.eventos == db.eventos && r.nextId == db.nextId
    ensures r.verracos == db.verracos && r.profiles == db.profiles && r.userRoles == db.userRoles
    ensures r.incidencias == IncidenciasWithResuelta(db.incidencias, id, resuelta)
    ensures ValidDb(db) ==> ValidDb(r)
  {
    db.(incidencias := IncidenciasWithResuelta(db.incidencias, id, resuelta))
  }

  /** The fields of the boar form, written as they are. */
  datatype VerracoData = VerracoData(codigo: string, nombre: string, raza: string, activo: bool)

  function WithVerraco(db: Tables, d: VerracoData): (r: Tables)
    ensures r.incidencias == db.incidencias && r.profiles == db.profiles && r.userRoles == db.userRoles
    ensures r.cerdas == db.cerdas && r.eventos == db.eventos
    ensures r.verracos == db.verracos[db.nextId := Verraco(db.nextId, d.codigo, Some(d.nombre), Some(d.raza), Some(d.activo))]
    ensures ValidDb(db) ==> ValidDb(r) && db.nextId !in db.verracos
  {
    db.(verracos := db.verracos[db.nextId := Verraco(db.nextId, d.codigo, Some(d.nombre), Some(d.raza), Some(d.activo))],
        nextId := db.nextId + 1)
  }

  function WithVerracoEdit(db: Tables, id: Id, d: VerracoData): (r: Tables)
    ensures r.incidencias == db.incidencias && r.profiles == db.profiles && r.userRoles == db.userRoles
    ensures r.cerdas == db.cerdas && r.eventos == db.eventos && r.nextId == db.nextId
    ensures r.verracos.Keys == db.verracos.Keys
    ensures forall k :: k in db.verracos && k != id ==> r.verracos[k] == db.verracos[k]
    ensures id in db.verracos ==> r.verracos[id] == db.verracos[id].(
      codigo := d.codigo, nombre := Some(d.nombre), raza := Some(d.raza), activo := Some(d.activo))
    ensures ValidDb(db) ==> ValidDb(r)
  {
    if id in db.verracos then
      db.(verracos := db.verracos[id := db.verracos[id].(
        codigo := d.codigo, nombre := Some(d.nombre), raza := Some(d.raza), activo := Some(d.activo))])
    else db
  }

  /** `update({ activo }).eq('id', id)` on the boars table: that column of that boar. */
  function WithVerracoActivo(db: Tables, id: Id, activo: bool): (r: Tables)
    ensures r.incidencias == db.incidencias && r.profiles == db.profiles && r.userRoles == db.userRoles
    ensures r.cerdas == db.cerdas && r.eventos == db.eventos && r.nextId == db.nextId
    ensures r.verracos.Keys == db.verracos.Keys
    ensures forall k :: k in db.verracos && k != id ==> r.verracos[k] == db.verracos[k]
    ensures id in db.verracos ==> r.verracos[id] == db.verracos[id].(activo := Some(activo))
    ensures ValidDb(db) ==> ValidDb(r)
  {
    if id in db.verracos then db.(verracos := db.verracos[id := db.verracos[id].(activo := Some(activo))]) else db
  }

  function WithoutVerraco(db: Tables, id: Id): (r: Tables)
    ensures r.incidencias == db.incidencias && r.profiles == db.profiles && r.userRoles == db.userRoles
    ensures r.cerdas == db.cerdas && r.eventos == db.eventos && r.nextId == db.nextId
    ensures id !in r.verracos && r.verracos.Keys == db.verracos.Keys - {id}
    ensures ValidDb(db) ==> ValidDb(r)
  {
    db.(verracos := db.verracos - {id})
  }

  /** The profiles table after `update({ nave_asignada }).eq('id', userId)`. */
  function ProfilesWithNave(ps: seq<Profile>, userId: Id, nave: Option<string>): (r: seq<Profile>)
    ensures |r| == |ps|
    ensures forall i :: 0 <= i < |r| ==> r[i] == if ps[i].id == userId then ps[i].(naveAsignada := nave) else ps[i]
  {
    seq(|ps|, i requires 0 <= i < |ps| => if ps[i].id == userId then ps[i].(naveAsignada := nave) else ps[i])
  }

  function WithNave(db: Tables, userId: Id, nave: Option<string>): (r: Tables)
    ensures r.cerdas == db.cerdas && r.eventos == db.eventos && r.userRoles == db.userRoles && r.nextId == db.nextId
    ensures r.incidencias == db.incidencias && r.verracos == db.verracos
    ensures r.profiles == ProfilesWithNave(db.profiles, userId, nave)
    ensures ValidDb(db) ==> ValidDb(r)
  {
    db.(profiles := ProfilesWithNave(db.profiles, userId, nave))
  }

  /** The role table after `update({ role }).eq('user_id', userId)`: every role row of that user. */
  function RolesWithUpdate(roles: seq<UserRole>, userId: Id, role: AppRole): (r: seq<UserRole>)
    ensures |r| == |roles|
    ensures forall i :: 0 <= i < |r| ==> r[i] == if roles[i].userId == userId then roles[i].(role := role) else roles[i]
  {
    seq(|roles|, i requires 0 <= i < |roles| => if roles[i].userId == userId then roles[i].(role := role) else roles[i])
  }

  function WithRoleUpdate(db: Tables, userId: Id, role: AppRole): (r: Tables)
    ensures r.cerdas == db.cerdas && r.eventos == db.eventos && r.profiles == db.profiles && r.nextId == db.nextId
    ensures r.incidencias == db.incidencias && r.verracos == db.verracos
    ensures r.userRoles == RolesWithUpdate(db.userRoles, userId, role)
    ensures ValidDb(db) ==> ValidDb(r)
  {
    db.(userRoles := RolesWithUpdate(db.userRoles, userId, role))
  }

  /** `insert({ user_id, role })` into the role table. */
  function WithRoleInsert(db: Tables, userId: Id, role: AppRole): (r: Tables)
    ensures r.cerdas == db.cerdas && r.eventos == db.eventos && r.profiles == db.profiles
    ensures r.incidencias == db.incidencias && r.verracos == db.verracos
    ensures r.userRoles == db.userRoles + [UserRole(db.nextId, userId, role)]
    ensures ValidDb(db) ==> ValidDb(r)
  {
    db.(userRoles := db.userRoles + [UserRole(db.nextId, userId, role)], nextId := db.nextId + 1)
  }

  /** Why a form refused to write anything. */
  datatype Rejection =
    | NoVerraco      // no boar selected
    | NoUser         // nobody signed in
    | NegativeCount  // a count below zero
    | BlankCodigo    // a code that trims to nothing
    | BlankTexto     // an incident text that trims to nothing
    | NoEvento       // no event to edit
    | MissingFecha   // an empty required date field
    | NotConfirmed   // the confirmation dialog was dismissed

  /** How a submitted form ended. */
  datatype Outcome =
    | Rejected(why: Rejection)  // a guard failed; nothing was sent
    | InsertFailed              // the (first) insert failed; nothing was written
    | UpdateFailed              // the update failed; an earlier insert of the same submit stays
    | Duplicate                 // the store refused a sow code already in use
    | Done

  /** The outcome of a submit together with the tables it leaves. */
  datatype Submission = Submission(outcome: Outcome, db: Tables)

  /** The rows the store holds; written only through the methods below. */
  class Store {
    var cerdas: map<Id, CerdaRow>
    var eventos: seq<Evento>
    var incidencias: seq<Incidencia>
    var verracos: map<Id, Verraco>
    var profiles: seq<Profile>
    var userRoles: seq<UserRole>
    var nextId: Id

    /** The tables as one value. */
    function Db(): Tables
      reads this
    {
      Tables(cerdas, eventos, incidencias, verracos, profiles, userRoles, nextId)
    }

    ghost predicate Valid()
      reads this
    {
      ValidDb(Db())
    }

    /** An empty store beside the given user profiles (profiles are created at sign-up, not here). */
    constructor (profiles: seq<Profile>)
      ensures Valid()
      ensures Db() == Tables(map[], [], [], map[], profiles, [], 0)
    {
      this.cerdas := map[];
      this.eventos := [];
      this.incidencias := [];
      this.verracos := map[];
      this.profiles := profiles;
      this.userRoles := [];
      this.nextId := 0;
    }

    method InsertEvento(e: Evento, fail: bool) returns (ok: bool)
      requires Valid()
      modifies this
      ensures Valid()
      ensures ok == !fail
      ensures Db() == if ok then WithEvento(old(Db()), e) else old(Db())
    {
      ok := !fail;
      if ok {
        eventos := eventos + [e.(id := nextId)];
        nextId := nextId + 1;
      }
    }

    method UpdateEstado(id: Id, e: EstadoCerda, fail: bool) returns (ok: bool)
      requires Valid()
      modifies this
      ensures Valid()
      ensures ok == !fail
      ensures Db() == if ok then WithEstado(old(Db()), id, e) else old(Db())
    {
      ok := !fail;
      if ok && id in cerdas {
        cerdas := cerdas[id := cerdas[id].(estado := Some(e))];
      }
    }

    method UpdateEstadoParidad(id: Id, e: EstadoCerda, p: Option<int>, fail: bool) returns (ok: bool)
      requires Valid()
      modifies this
      ensures Valid()
      ensures ok == !fail
      ensures Db() == if ok then WithEstadoParidad(old(Db()), id, e, p) else old(Db())
    {
      ok := !fail;
      if ok && id in cerdas {
        cerdas := cerdas[id := cerdas[id].(estado := Some(e), paridad := p)];
      }
    }

    /** The administrative edit; a code already used by another sow violates the unique column. */
    method UpdateCerda(id: Id, f: CerdaEdit, fail: bool) returns (ok: bool)
      requires Valid()
      modifies this
      ensures Valid()
      ensures ok == (!fail && !(id in old(cerdas) && CodigoTaken(old(Db()), f.codigo, Some(id))))
      ensures Db() == if ok then WithCerdaEdit(old(Db()), id, f) else old(Db())
    {
      ok := !fail && !(id in cerdas && CodigoTaken(Db(), f.codigo, Some(id)));
      if ok && id in cerdas {
        cerdas := cerdas[id := cerdas[id].(
          codigo := f.codigo, nombre := f.nombre, nave := f.nave, origen := f.origen,
          paridad := Some(f.paridad), estado := Some(f.estado), activa := Some(f.activa))];
      }
    }

    /** Registration. A code already in use violates the unique column; the store reports that apart from other failures. */
    method InsertCerda(codigo: string, nombre: Option<string>, origen: Option<string>, nave: Option<string>, fail: bool)
      returns (ok: bool, duplicate: bool)
      requires Valid()
      modifies this
      ensures Valid()
      ensures ok == (!fail && !CodigoTaken(old(Db()), codigo, None))
      ensures duplicate == (!fail && CodigoTaken(old(Db()), codigo, None))
      ensures Db() == if ok then WithCerda(old(Db()), codigo, nombre, origen, nave) else old(Db())
    {
      duplicate := !fail && CodigoTaken(Db(), codigo, None);
      ok := !fail && !duplicate;
      if ok {
        cerdas := cerdas[nextId := NewCerda(nextId, codigo, nombre, origen, nave)];
        nextId := nextId + 1;
      }
    }

    method UpdateEvento(id: Id, fecha: Day, notas: Option<string>, fail: bool) returns (ok: bool)
      requires Valid()
      modifies this
      ensures Valid()
      ensures ok == !fail
      ensures Db() == if ok then WithEventoEdit(old(Db()), id, fecha, notas) else old(Db())
    {
      ok := !fail;
      if ok {
        eventos := EventosWithEdit(eventos, id, fecha, notas);
      }
    }

    method InsertIncidencia(cerdaId: Id, usuarioId: Id, texto: string, fechaHora: Instant, fail: bool) returns (ok: bool)
      requires Valid()
      modifies this
      ensures Valid()
      ensures ok == !fail
      ensures Db() == if ok then WithIncidencia(old(Db()), cerdaId, usuarioId, texto, fechaHora) else old(Db())
    {
      ok := !fail;
      if ok {
        incidencias := incidencias + [Incidencia(nextId, cerdaId, usuarioId, fechaHora, texto, false)];
        nextId := nextId + 1;
      }
    }

    method UpdateResuelta(id: Id, resuelta: bool, fail: bool) returns (ok: bool)
      requires Valid()
      modifies this
      ensures Valid()
      ensures ok == !fail
      ensures Db() == if ok then WithResuelta(old(Db()), id, resuelta) else old(Db())
    {
      ok := !fail;
      if ok {
        incidencias := IncidenciasWithResuelta(incidencias, id, resuelta);
      }
    }

    method InsertVerraco(d: VerracoData, fail: bool) returns (ok: bool)
      requires Valid()
      modifies this
      ensures Valid()
      ensures ok == !fail
      ensures Db() == if ok then WithVerraco(old(Db()), d) else old(Db())
    {
      ok := !fail;
      if ok {
        verracos := verracos[nextId := Verraco(nextId, d.codigo, Some(d.nombre), Some(d.raza), Some(d.activo))];
        nextId := nextId + 1;
      }
    }

    method UpdateVerraco(id: Id, d: VerracoData, fail: bool) returns (ok: bool)
      requires Valid()
      modifies this
      ensures Valid()
      ensures ok == !fail
      ensures Db() == if ok then WithVerracoEdit(old(Db()), id, d) else old(Db())
    {
      ok := !fail;
      if ok && id in verracos {
        verracos := verracos[id := verracos[id].(
          codigo := d.codigo, nombre := Some(d.nombre), raza := Some(d.raza), activo := Some(d.activo))];
      }
    }

    method UpdateVerracoActivo(id: Id, activo: bool, fail: bool) returns (ok: bool)
      requires Valid()
      modifies this
      ensures Valid()
      ensures ok == !fail
      ensures Db() == if ok then WithVerracoActivo(old(Db()), id, activo) else old(Db())
    {
      ok := !fail;
      if ok && id in verracos {
        verracos := verracos[id := verracos[id].(activo := Some(activo))];
      }
    }

    method DeleteVerraco(id: Id, fail: bool) returns (ok: bool)
      requires Valid()
      modifies this
      ensures Valid()
      ensures ok == !fail
      ensures Db() == if ok then WithoutVerraco(old(Db()), id) else old(Db())
    {
      ok := !fail;
      if ok {
        verracos := verracos - {id};
      }
    }

    method UpdateNave(userId: Id, nave: Option<string>, fail: bool) returns (ok: bool)
      requires Valid()
      modifies this
      ensures Valid()
      ensures ok == !fail
      ensures Db() == if ok then WithNave(old(Db()), userId, nave) else old(Db())
    {
      ok := !fail;
      if ok {
        profiles := ProfilesWithNave(profiles, userId, nave);
      }
    }

    method UpdateRoles(userId: Id, role: AppRole, fail: bool) returns (ok: bool)
      requires Valid()
      modifies this
      ensures Valid()
      ensures ok == !fail
      ensures Db() == if ok then WithRoleUpdate(old(Db()), userId, role) else old(Db())
    {
      ok := !fail;
      if ok {
        userRoles := RolesWithUpdate(userRoles, userId, role);
      }
    }

    method InsertRole(userId: Id, role: AppRole, fail: bool) returns (ok: bool)
      requires Valid()
      modifies this
      ensures Valid()
      ensures ok == !fail
      ensures Db() == if ok then WithRoleInsert(old(Db()), userId, role) else old(Db())
    {
      ok := !fail;
      if ok {
        userRoles := userRoles + [UserRole(nextId, userId, role)];
        nextId := nextId + 1;
      }
    }
  }
}
