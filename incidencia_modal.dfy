/**
 * The form that reports an incident on a sow: a free-text description of at
 * most 400 characters. Reporting inserts one unresolved incident, stamped with
 * the moment of the submit and the signed-in user.
 */
module IncidenciaModal {
  import opened Base
  import opened Text
  import opened Database
  import opened Persistence

  /** The description keeps at most this many characters. */
  const TEXTO_MAX: nat := 400

  /**
   * `handleSubmit` on the tables: a description that trims to nothing is
   * refused first, then a missing user; otherwise one insert writes the trimmed
   * description with the time of the submit.
   */
  function Submit(db: Tables, user: Option<Id>, cerdaId: Id, texto: string, now: Instant, fail: bool): (r: Submission)
    ensures r.outcome == Rejected(BlankTexto) <==> IsBlank(texto)
    ensures r.outcome == Rejected(NoUser) <==> !IsBlank(texto) && user.None?
    ensures r.outcome == Done <==> !IsBlank(texto) && user.Some? && !fail
    ensures r.outcome == Done || r.outcome == InsertFailed || r.outcome.Rejected?
    ensures r.outcome != Done <==> r.db == db
    ensures r.db.cerdas == db.cerdas && r.db.eventos == db.eventos
    ensures r.db.verracos == db.verracos && r.db.profiles == db.profiles && r.db.userRoles == db.userRoles
    ensures r.outcome == Done ==>
      && |r.db.incidencias| == |db.incidencias| + 1 && r.db.incidencias[..|db.incidencias|] == db.incidencias
      && var n := r.db.incidencias[|db.incidencias|];
         && n.id == db.nextId && n.cerdaId == cerdaId && n.usuarioId == user.value && n.fechaHora == now
         && n.texto == Trim(texto) && n.texto != [] && !n.resuelta
    ensures ValidDb(db) ==> ValidDb(r.db)
  {
    if IsBlank(texto) then Submission(Rejected(BlankTexto), db)
    else if user.None? then Submission(Rejected(NoUser), db)
    else if fail then Submission(InsertFailed, db)
    else Submission(Done, WithIncidencia(db, cerdaId, user.value, Trim(texto), now))
  }

  /** A stored description has neither leading nor trailing blanks, and fits the field. */
  lemma StoredTextoIsTrimmed(db: Tables, user: Option<Id>, cerdaId: Id, texto: string, now: Instant)
    requires |texto| <= TEXTO_MAX
    ensures var r := Submit(db, user, cerdaId, texto, now, false);
      r.outcome == Done ==> var t := r.db.incidencias[|db.incidencias|].texto; Trim(t) == t && |t| <= TEXTO_MAX
  {
    TrimIdempotent(texto);
    TrimShape(texto);
  }

  /** The submit button's test on the description (the `loading` half of it is not modelled): some non-blank character. */
  predicate SubmitEnabled(texto: string) {
    !IsBlank(texto)
  }

  /** The button and the handler's first guard agree: an enabled button never meets the blank-text refusal. */
  lemma EnabledButtonPassesBlankGuard(db: Tables, user: Option<Id>, cerdaId: Id, texto: string, now: Instant, fail: bool)
    ensures SubmitEnabled(texto) <==> Submit(db, user, cerdaId, texto, now, fail).outcome != Rejected(BlankTexto)
  {
  }

  /** The state of the form. `open` is the dialog flag the page showing the form owns; `onClose` clears it. */
  class Form {
    var texto: string
    var open: bool

    predicate Valid()
      reads this
    {
      |texto| <= TEXTO_MAX
    }

    constructor (open: bool)
      ensures Valid() && texto == "" && this.open == open
    {
      texto := "";
      this.open := open;
    }

    /** The description's `onChange`, which truncates the typed text. */
    method EditTexto(text: string)
      modifies this`texto
      ensures Valid() && texto == Cap(text, TEXTO_MAX)
    {
      texto := Cap(text, TEXTO_MAX);
    }

    /** Dismissing the dialog closes it; the description keeps its text. */
    method HandleOpenChange(isOpen: bool)
      modifies this`open
      ensures open == (old(open) && isOpen)
    {
      if !isOpen {
        open := false;
      }
    }

    /** `handleSubmit`: on success the description is cleared and the dialog closed; otherwise nothing changes. */
    method HandleSubmit(store: Store, user: Option<Id>, cerdaId: Id, now: Instant, fail: bool) returns (o: Outcome)
      requires Valid() && store.Valid()
      modifies this, store
      ensures Valid() && store.Valid()
      ensures var r := Submit(old(store.Db()), user, cerdaId, old(texto), now, fail); o == r.outcome && store.Db() == r.db
      ensures if o == Done then texto == "" && !open else unchanged(this)
    {
      if IsBlank(texto) {
        o := Rejected(BlankTexto);
      } else if user.None? {
        o := Rejected(NoUser);
      } else {
        var ok := store.InsertIncidencia(cerdaId, user.value, Trim(texto), now, fail);
        if !ok {
          o := InsertFailed;
        } else {
          texto := "";
          open := false;
          o := Done;
        }
      }
    }
  }
}
