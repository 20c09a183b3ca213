/**
 * The service form of a sow: pick one of the active boars, add optional notes,
 * and record the service. Recording inserts a `cubricion` event dated today and
 * then moves the sow to `cubierta`; the two writes are separate, so a failed
 * second write leaves the event in place.
 */
module CubricionModal {
  import opened Base
  import opened Text
  import opened Database
  import opened Persistence

  /** The notes field keeps at most this many characters. */
  const NOTAS_MAX: nat := 300

  /** `i` is the first position of `vs` holding the boar `id`. */
  predicate FirstWithId(vs: seq<Verraco>, id: Id, i: int) {
    0 <= i < |vs| && vs[i].id == id && forall j :: 0 <= j < i ==> vs[j].id != id
  }

  /** `verracos.find(v => v.id === verracoId)`: the first boar with that id, if any. */
  function FindVerraco(vs: seq<Verraco>, id: Id): (r: Option<Verraco>)
    ensures r.None? <==> forall i :: 0 <= i < |vs| ==> vs[i].id != id
    ensures r.Some? ==> exists i :: FirstWithId(vs, id, i) && vs[i] == r.value
  {
    if vs == [] then None
    else if vs[0].id == id then
      assert FirstWithId(vs, id, 0);
      Some(vs[0])
    else
      var r := FindVerraco(vs[1..], id);
      assert r.Some? ==> exists i :: FirstWithId(vs, id, i) && vs[i] == r.value by {
        if r.Some? {
          var i :| FirstWithId(vs[1..], id, i) && vs[1..][i] == r.value;
          assert FirstWithId(vs, id, i + 1);
        }
      }
      assert r.None? ==> forall i :: 0 <= i < |vs| ==> vs[i].id != id by {
        if r.None? {
          forall i | 1 <= i < |vs| ensures vs[i].id != id {
            assert vs[i] == vs[1..][i - 1];
          }
        }
      }
      r
  }

  /**
   * The event payload: the chosen boar's id, and its code and name as found in
   * the loaded list of active boars (`selectedVerraco?.codigo`, `?.nombre`), absent
   * when the list is not loaded or does not hold that boar.
   */
  function BoarDatos(verracos: Option<seq<Verraco>>, id: Id): (d: Datos)
    ensures d.CubricionDatos? && d.verracoId == id
    ensures d.verracoCodigo.Some? <==> verracos.Some? && exists i :: 0 <= i < |verracos.value| && verracos.value[i].id == id
    ensures d.verracoCodigo.None? ==> d.verracoNombre.None?
    ensures d.verracoCodigo.Some? ==>
      exists i :: FirstWithId(verracos.value, id, i)
        && d.verracoCodigo.value == verracos.value[i].codigo && d.verracoNombre == verracos.value[i].nombre
  {
    var v := if verracos.Some? then FindVerraco(verracos.value, id) else None;
    CubricionDatos(id, if v.Some? then Some(v.value.codigo) else None, if v.Some? then v.value.nombre else None)
  }

  /** The row the submit inserts; the store assigns its id. */
  function NuevoEvento(cerdaId: Id, userId: Id, verracoId: Id, verracos: Option<seq<Verraco>>, today: Day, notas: string): Evento {
    Evento(0, cerdaId, Some(userId), Cubricion, today, BoarDatos(verracos, verracoId), OrNull(notas))
  }

  /**
   * `handleSubmit` on the tables: a boar must be chosen and a user signed in
   * (checked in that order); then the event is inserted and, only if that
   * worked, the sow's state is set.
   */
  function Submit(db: Tables, verracoId: Option<Id>, user: Option<Id>, cerdaId: Id, verracos: Option<seq<Verraco>>,
                  today: Day, notas: string, insertFails: bool, updateFails: bool): (r: Submission)
    ensures r.outcome == Rejected(NoVerraco) <==> verracoId.None?
    ensures r.outcome == Rejected(NoUser) <==> verracoId.Some? && user.None?
    ensures r.outcome == InsertFailed <==> verracoId.Some? && user.Some? && insertFails
    ensures r.outcome == Done <==> verracoId.Some? && user.Some? && !insertFails && !updateFails
    ensures r.outcome.Rejected? || r.outcome == InsertFailed <==> r.db == db
    ensures SideTablesSame(db, r.db)
    ensures r.outcome != Done ==> r.db.cerdas == db.cerdas
    ensures r.outcome == UpdateFailed || r.outcome == Done ==>
      && |r.db.eventos| == |db.eventos| + 1 && r.db.eventos[..|db.eventos|] == db.eventos
      && var e := r.db.eventos[|db.eventos|];
         && e.id == db.nextId && e.cerdaId == cerdaId && e.usuarioId == user && e.tipo == Cubricion
         && e.fecha == today && e.datos == BoarDatos(verracos, verracoId.value) && e.notas == OrNull(notas)
    ensures r.outcome == Done ==>
      && OnlySowChanged(db.cerdas, r.db.cerdas, cerdaId)
      && (cerdaId in db.cerdas ==> r.db.cerdas[cerdaId] == db.cerdas[cerdaId].(estado := Some(Cubierta)))
    ensures ValidDb(db) ==> ValidDb(r.db)
  {
    if verracoId.None? then Submission(Rejected(NoVerraco), db)
    else if user.None? then Submission(Rejected(NoUser), db)
    else if insertFails then Submission(InsertFailed, db)
    else
      var db1 := WithEvento(db, NuevoEvento(cerdaId, user.value, verracoId.value, verracos, today, notas));
      if updateFails then Submission(UpdateFailed, db1)
      else Submission(Done, WithEstado(db1, cerdaId, Cubierta))
  }

  /** Recorded notes are never longer than the field allows. */
  lemma StoredNotasFit(db: Tables, verracoId: Option<Id>, user: Option<Id>, cerdaId: Id, verracos: Option<seq<Verraco>>,
                       today: Day, notas: string, insertFails: bool, updateFails: bool)
    requires |notas| <= NOTAS_MAX
    ensures var r := Submit(db, verracoId, user, cerdaId, verracos, today, notas, insertFails, updateFails);
      forall i :: 0 <= i < |r.db.eventos| && r.db.eventos[i].notas.Some? && i >= |db.eventos| ==>
        |r.db.eventos[i].notas.value| <= NOTAS_MAX
  {
  }

  /** The state of the form. `open` is the dialog flag the page showing the form owns; `onClose` clears it. */
  class Form {
    var verracoId: Option<Id>
    var notas: string
    var open: bool

    predicate Valid()
      reads this
    {
      |notas| <= NOTAS_MAX
    }

    /** The form as first shown: no boar, no notes. */
    constructor (open: bool)
      ensures Valid() && verracoId.None? && notas == "" && this.open == open
    {
      verracoId := None;
      notas := "";
      this.open := open;
    }

    /** The boar select's `onValueChange`. */
    method SelectVerraco(id: Id)
      requires Valid()
      modifies this`verracoId
      ensures Valid() && verracoId == Some(id)
    {
      verracoId := Some(id);
    }

    /** The notes field's `onChange`, which truncates the typed text. */
    method EditNotas(text: string)
      modifies this`notas
      ensures Valid() && notas == Cap(text, NOTAS_MAX)
    {
      notas := Cap(text, NOTAS_MAX);
    }

    /** Closing the dialog clears the form; opening it changes nothing here. */
    method HandleOpenChange(isOpen: bool)
      requires Valid()
      modifies this
      ensures Valid()
      ensures if isOpen then verracoId == old(verracoId) && notas == old(notas) && open == old(open)
              else verracoId.None? && notas == "" && !open
    {
      if !isOpen {
        verracoId := None;
        notas := "";
        open := false;
      }
    }

    /** The Cancel button calls `onClose` alone: the dialog closes and the form keeps its values. */
    method Cancel()
      requires Valid()
      modifies this`open
      ensures Valid() && !open
    {
      open := false;
    }

    /** `handleSubmit`: on success the form is cleared and closed; otherwise it stays as it was. */
    method HandleSubmit(store: Store, user: Option<Id>, cerdaId: Id, verracos: Option<seq<Verraco>>, today: Day,
                        insertFails: bool, updateFails: bool) returns (o: Outcome)
      requires Valid() && store.Valid()
      modifies this, store
      ensures Valid() && store.Valid()
      ensures var r := Submit(old(store.Db()), old(verracoId), user, cerdaId, verracos, today, old(notas), insertFails, updateFails);
        o == r.outcome && store.Db() == r.db
      ensures if o == Done then verracoId.None? && notas == "" && !open
              else verracoId == old(verracoId) && notas == old(notas) && open == old(open)
    {
      if verracoId.None? {
        o := Rejected(NoVerraco);
      } else if user.None? {
        o := Rejected(NoUser);
      } else {
        var ok := store.InsertEvento(NuevoEvento(cerdaId, user.value, verracoId.value, verracos, today, notas), insertFails);
        if !ok {
          o := InsertFailed;
        } else {
          ok := store.UpdateEstado(cerdaId, Cubierta, updateFails);
          if !ok {
            o := UpdateFailed;
          } else {
            verracoId := None;
            notas := "";
            open := false;
            o := Done;
          }
        }
      }
    }
  }
}
