/**
 * The weaning form of a sow: the number of weaned piglets, their mean weight
 * and optional notes. Recording inserts a `destete` event and then sets the sow
 * to `destete`. Nothing is required of the sow's current state, and neither its
 * parity nor its history means are written.
 */
module DesteteModal {
  import opened Base
  import opened Text
  import opened Database
  import opened Persistence

  /** The notes field keeps at most this many characters. */
  const NOTAS_MAX: nat := 500

  /** The weight field as the event records it: nothing when it is empty. */
  function PesoMedio(text: string): (r: Option<string>)
    ensures r.None? <==> text == ""
    ensures r.Some? ==> r.value == text
  {
    if text == "" then None else Some(text)
  }

  function NuevoEvento(cerdaId: Id, userId: Id, lechones: int, pesoMedio: string, today: Day, notas: string): Evento {
    Evento(0, cerdaId, Some(userId), TipoEvento.Destete, today, DesteteDatos(lechones, PesoMedio(pesoMedio)), OrNull(notas))
  }

  /**
   * `handleSubmit` on the tables: a user must be signed in, then the count may
   * not be negative; then the event is inserted and, only if that worked, the
   * sow's state is written.
   */
  function Submit(db: Tables, user: Option<Id>, cerdaId: Id, lechones: int, pesoMedio: string,
                  today: Day, notas: string, insertFails: bool, updateFails: bool): (r: Submission)
    ensures r.outcome == Rejected(NoUser) <==> user.None?
    ensures r.outcome == Rejected(NegativeCount) <==> user.Some? && lechones < 0
    ensures r.outcome == InsertFailed <==> user.Some? && lechones >= 0 && insertFails
    ensures r.outcome == Done <==> user.Some? && lechones >= 0 && !insertFails && !updateFails
    ensures r.outcome.Rejected? || r.outcome == InsertFailed <==> r.db == db
    ensures SideTablesSame(db, r.db)
    ensures r.outcome != Done ==> r.db.cerdas == db.cerdas
    ensures r.outcome == UpdateFailed || r.outcome == Done ==>
      && |r.db.eventos| == |db.eventos| + 1 && r.db.eventos[..|db.eventos|] == db.eventos
      && var e := r.db.eventos[|db.eventos|];
         && e.id == db.nextId && e.cerdaId == cerdaId && e.usuarioId == user && e.tipo == TipoEvento.Destete
         && e.fecha == today && e.notas == OrNull(notas)
         && e.datos == DesteteDatos(lechones, PesoMedio(pesoMedio)) && lechones >= 0
    ensures r.outcome == Done ==>
      && OnlySowChanged(db.cerdas, r.db.cerdas, cerdaId)
      && (cerdaId in db.cerdas ==> r.db.cerdas[cerdaId] == db.cerdas[cerdaId].(estado := Some(EstadoCerda.Destete)))
    ensures ValidDb(db) ==> ValidDb(r.db)
  {
    if user.None? then Submission(Rejected(NoUser), db)
    else if lechones < 0 then Submission(Rejected(NegativeCount), db)
    else if insertFails then Submission(InsertFailed, db)
    else
      var db1 := WithEvento(db, NuevoEvento(cerdaId, user.value, lechones, pesoMedio, today, notas));
      if updateFails then Submission(UpdateFailed, db1)
      else Submission(Done, WithEstado(db1, cerdaId, EstadoCerda.Destete))
  }

  /** Weaning is accepted from every state: whatever the sow's state, a complete submit leaves it weaned. */
  lemma AcceptedFromAnyState(db: Tables, user: Id, cerdaId: Id, lechones: nat, pesoMedio: string, today: Day, notas: string)
    requires cerdaId in db.cerdas
    ensures var r := Submit(db, Some(user), cerdaId, lechones, pesoMedio, today, notas, false, false);
      && r.outcome == Done
      && r.db.cerdas[cerdaId].estado == Some(EstadoCerda.Destete)
      && r.db.cerdas[cerdaId].paridad == db.cerdas[cerdaId].paridad
      && r.db.cerdas[cerdaId].medios == db.cerdas[cerdaId].medios
  {
  }

  /** The state of the form. `open` is the dialog flag the page showing the form owns; `onClose` clears it. */
  class Form {
    var lechones: int
    var pesoMedio: string
    var notas: string
    var open: bool

    predicate Valid()
      reads this
    {
      |notas| <= NOTAS_MAX
    }

    /** `resetForm`'s values: the field values a form is created with. */
    predicate IsClear()
      reads this
    {
      lechones == 0 && pesoMedio == "" && notas == ""
    }

    constructor (open: bool)
      ensures Valid() && IsClear() && this.open == open
    {
      lechones := 0;
      pesoMedio := "";
      notas := "";
      this.open := open;
    }

    /** The count input's `onChange`: `parseInt(value) || 0`. */
    method EditLechones(text: string)
      requires Valid()
      modifies this`lechones
      ensures Valid() && lechones == ParseIntOrZero(text)
    {
      lechones := ParseIntOrZero(text);
    }

    /** The weight input keeps the typed text. */
    method EditPesoMedio(text: string)
      requires Valid()
      modifies this`pesoMedio
      ensures Valid() && pesoMedio == text
    {
      pesoMedio := text;
    }

    /** The notes field's `onChange`, which truncates the typed text. */
    method EditNotas(text: string)
      modifies this`notas
      ensures Valid() && notas == Cap(text, NOTAS_MAX)
    {
      notas := Cap(text, NOTAS_MAX);
    }

    /** `resetForm`. */
    method ResetForm()
      modifies this`lechones, this`pesoMedio, this`notas
      ensures Valid() && IsClear()
    {
      lechones := 0;
      pesoMedio := "";
      notas := "";
    }

    /** Closing the dialog resets the form; opening it changes nothing here. */
    method HandleOpenChange(isOpen: bool)
      requires Valid()
      modifies this
      ensures Valid()
      ensures if isOpen then unchanged(this) else IsClear() && !open
    {
      if !isOpen {
        ResetForm();
        open := false;
      }
    }

    /** The Cancel button calls `onClose` alone: the dialog closes and the form keeps its values. */
    method Cancel()
      requires Valid()
      modifies this`open
      ensures Valid() && !open
    {
      open := false;
    }

    /** `handleSubmit`: on success the form is reset and closed; otherwise it stays as it was. */
    method HandleSubmit(store: Store, user: Option<Id>, cerdaId: Id, today: Day, insertFails: bool, updateFails: bool)
      returns (o: Outcome)
      requires Valid() && store.Valid()
      modifies this, store
      ensures Valid() && store.Valid()
      ensures var r := Submit(old(store.Db()), user, cerdaId, old(lechones), old(pesoMedio), today, old(notas),
                              insertFails, updateFails);
        o == r.outcome && store.Db() == r.db
      ensures if o == Done then IsClear() && !open else unchanged(this)
    {
      if user.None? {
        o := Rejected(NoUser);
      } else if lechones < 0 {
        o := Rejected(NegativeCount);
      } else {
        var ok := store.InsertEvento(NuevoEvento(cerdaId, user.value, lechones, pesoMedio, today, notas), insertFails);
        if !ok {
          o := InsertFailed;
        } else {
          ok := store.UpdateEstado(cerdaId, EstadoCerda.Destete, updateFails);
          if !ok {
            o := UpdateFailed;
          } else {
            ResetForm();
            open := false;
            o := Done;
          }
        }
      }
    }
  }
}
