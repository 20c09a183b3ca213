/**
 * The farrowing form of a sow: the litter counts (born alive, stillborn,
 * mummified) and optional notes. Recording inserts a `parto` event carrying the
 * counts and their total, then sets the sow to `parto` with its parity one above
 * the parity the caller passed in.
 */
module PartoModal {
  import opened Base
  import opened Text
  import opened Database
  import opened Persistence

  /** The notes field keeps at most this many characters. */
  const NOTAS_MAX: nat := 500

  /**
   * `paridad + 1` as it reaches the store. The caller's `paridad` may be missing
   * (`None`); then the sum is NaN, which JSON encodes as null.
   */
  function NextParidad(paridad: Option<int>): Option<int> {
    if paridad.Some? then Some(paridad.value + 1) else None
  }

  function NuevoEvento(cerdaId: Id, userId: Id, vivos: int, muertos: int, momificados: int, today: Day, notas: string): Evento {
    Evento(0, cerdaId, Some(userId), TipoEvento.Parto, today,
           PartoDatos(vivos, muertos, momificados, vivos + muertos + momificados), OrNull(notas))
  }

  /**
   * `handleSubmit` on the tables: a user must be signed in, then no count may be
   * negative; then the event is inserted and, only if that worked, the sow's
   * state and parity are written.
   */
  function Submit(db: Tables, user: Option<Id>, cerdaId: Id, paridad: Option<int>, vivos: int, muertos: int, momificados: int,
                  today: Day, notas: string, insertFails: bool, updateFails: bool): (r: Submission)
    ensures r.outcome == Rejected(NoUser) <==> user.None?
    ensures r.outcome == Rejected(NegativeCount) <==> user.Some? && (vivos < 0 || muertos < 0 || momificados < 0)
    ensures r.outcome == InsertFailed <==> user.Some? && vivos >= 0 && muertos >= 0 && momificados >= 0 && insertFails
    ensures r.outcome == Done <==>
      user.Some? && vivos >= 0 && muertos >= 0 && momificados >= 0 && !insertFails && !updateFails
    ensures r.outcome.Rejected? || r.outcome == InsertFailed <==> r.db == db
    ensures SideTablesSame(db, r.db)
    ensures r.outcome != Done ==> r.db.cerdas == db.cerdas
    ensures r.outcome == UpdateFailed || r.outcome == Done ==>
      && |r.db.eventos| == |db.eventos| + 1 && r.db.eventos[..|db.eventos|] == db.eventos
      && var e := r.db.eventos[|db.eventos|];
         && e.id == db.nextId && e.cerdaId == cerdaId && e.usuarioId == user && e.tipo == TipoEvento.Parto
         && e.fecha == today && e.notas == OrNull(notas)
         && e.datos.PartoDatos? && e.datos.nacidosVivos == vivos && e.datos.nacidosMuertos == muertos
         && e.datos.momificados == momificados && e.datos.total == vivos + muertos + momificados
         && 0 <= e.datos.nacidosVivos <= e.datos.total
    ensures r.outcome == Done ==>
      && OnlySowChanged(db.cerdas, r.db.cerdas, cerdaId)
      && (cerdaId in db.cerdas ==>
            r.db.cerdas[cerdaId] == db.cerdas[cerdaId].(estado := Some(EstadoCerda.Parto), paridad := NextParidad(paridad)))
    ensures r.outcome == Done && cerdaId in db.cerdas ==>
      (r.db.cerdas[cerdaId].paridad.Some? <==> paridad.Some?)
      && (paridad.Some? ==> r.db.cerdas[cerdaId].paridad.value == paridad.value + 1)
    ensures ValidDb(db) ==> ValidDb(r.db)
  {
    if user.None? then Submission(Rejected(NoUser), db)
    else if vivos < 0 || muertos < 0 || momificados < 0 then Submission(Rejected(NegativeCount), db)
    else if insertFails then Submission(InsertFailed, db)
    else
      var db1 := WithEvento(db, NuevoEvento(cerdaId, user.value, vivos, muertos, momificados, today, notas));
      if updateFails then Submission(UpdateFailed, db1)
      else Submission(Done, WithEstadoParidad(db1, cerdaId, EstadoCerda.Parto, NextParidad(paridad)))
  }

  /** The state of the form. `open` is the dialog flag the page showing the form owns; `onClose` clears it. */
  class Form {
    var nacidosVivos: int
    var nacidosMuertos: int
    var momificados: int
    var notas: string
    var open: bool

    predicate Valid()
      reads this
    {
      |notas| <= NOTAS_MAX
    }

    /** `resetForm`'s values: the field values a form is created with. */
    predicate IsClear()
      reads this
    {
      nacidosVivos == 0 && nacidosMuertos == 0 && momificados == 0 && notas == ""
    }

    constructor (open: bool)
      ensures Valid() && IsClear() && this.open == open
    {
      nacidosVivos, nacidosMuertos, momificados := 0, 0, 0;
      notas := "";
      this.open := open;
    }

    /** The three number inputs' `onChange`: `parseInt(value) || 0`. */
    method EditNacidosVivos(text: string)
      requires Valid()
      modifies this`nacidosVivos
      ensures Valid() && nacidosVivos == ParseIntOrZero(text)
    {
      nacidosVivos := ParseIntOrZero(text);
    }

    method EditNacidosMuertos(text: string)
      requires Valid()
      modifies this`nacidosMuertos
      ensures Valid() && nacidosMuertos == ParseIntOrZero(text)
    {
      nacidosMuertos := ParseIntOrZero(text);
    }

    method EditMomificados(text: string)
      requires Valid()
      modifies this`momificados
      ensures Valid() && momificados == ParseIntOrZero(text)
    {
      momificados := ParseIntOrZero(text);
    }

    /** The notes field's `onChange`, which truncates the typed text. */
    method EditNotas(text: string)
      modifies this`notas
      ensures Valid() && notas == Cap(text, NOTAS_MAX)
    {
      notas := Cap(text, NOTAS_MAX);
    }

    /** `resetForm`. */
    method ResetForm()
      modifies this`nacidosVivos, this`nacidosMuertos, this`momificados, this`notas
      ensures Valid() && IsClear()
    {
      nacidosVivos, nacidosMuertos, momificados := 0, 0, 0;
      notas := "";
    }

    /** Closing the dialog resets the form; opening it changes nothing here. */
    method HandleOpenChange(isOpen: bool)
      requires Valid()
      modifies this
      ensures Valid()
      ensures if isOpen then unchanged(this) else IsClear() && !open
    {
      if !isOpen {
        ResetForm();
        open := false;
      }
    }

    /** The Cancel button calls `onClose` alone: the dialog closes and the form keeps its values. */
    method Cancel()
      requires Valid()
      modifies this`open
      ensures Valid() && !open
    {
      open := false;
    }

    /** `handleSubmit`: on success the form is reset and closed; otherwise it stays as it was. */
    method HandleSubmit(store: Store, user: Option<Id>, cerdaId: Id, paridad: Option<int>, today: Day,
                        insertFails: bool, updateFails: bool) returns (o: Outcome)
      requires Valid() && store.Valid()
      modifies this, store
      ensures Valid() && store.Valid()
      ensures var r := Submit(old(store.Db()), user, cerdaId, paridad, old(nacidosVivos), old(nacidosMuertos), old(momificados),
                              today, old(notas), insertFails, updateFails);
        o == r.outcome && store.Db() == r.db
      ensures if o == Done then IsClear() && !open else unchanged(this)
    {
      if user.None? {
        o := Rejected(NoUser);
      } else if nacidosVivos < 0 || nacidosMuertos < 0 || momificados < 0 {
        o := Rejected(NegativeCount);
      } else {
        var ok := store.InsertEvento(NuevoEvento(cerdaId, user.value, nacidosVivos, nacidosMuertos, momificados, today, notas),
                                     insertFails);
        if !ok {
          o := InsertFailed;
        } else {
          ok := store.UpdateEstadoParidad(cerdaId, EstadoCerda.Parto, NextParidad(paridad), updateFails);
          if !ok {
            o := UpdateFailed;
          } else {
            ResetForm();
            open := false;
            o := Done;
          }
        }
      }
    }
  }
}
