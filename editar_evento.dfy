/**
 * The editor of a recorded event. It shows the event's type and lets the date
 * and the notes be changed; it writes those two columns and nothing else.
 */
module EditarEventoModal {
  import opened Base
  import opened Text
  import opened Database
  import opened Persistence

  /** The notes field keeps at most this many characters. */
  const NOTAS_MAX: nat := 500

  /** The type shown in the header: `TIPO_EVENTO_LABELS[tipo] || tipo`. */
  function TipoShown(key: string): (s: string)
    ensures forall t: TipoEvento :: key == TipoKey(t) ==> s == TipoEventoLabel(t)
    ensures TipoFromKey(key).None? ==> s == key
  {
    var t := TipoFromKey(key);
    if t.Some? then TipoEventoLabel(t.value) else key
  }

  /** The events with a given id. */
  predicate HasId(e: Evento, id: Id) {
    e.id == id
  }

  /**
   * `handleSubmit` on the tables. An empty date field stops the browser from
   * submitting at all; without an event nothing is sent; otherwise one update
   * sets the event's date and its notes, trimmed or null.
   */
  function Submit(db: Tables, evento: Option<Evento>, fecha: Option<Day>, notas: string, fail: bool): (r: Submission)
    ensures r.outcome == Rejected(MissingFecha) <==> fecha.None?
    ensures r.outcome == Rejected(NoEvento) <==> fecha.Some? && evento.None?
    ensures r.outcome == Done <==> fecha.Some? && evento.Some? && !fail
    ensures r.outcome == Done || r.outcome == UpdateFailed || r.outcome.Rejected?
    ensures r.outcome != Done ==> r.db == db
    ensures r.db.cerdas == db.cerdas && r.db.nextId == db.nextId && SideTablesSame(db, r.db)
    ensures |r.db.eventos| == |db.eventos|
    ensures forall i :: 0 <= i < |db.eventos| ==>
      r.db.eventos[i] == db.eventos[i].(fecha := r.db.eventos[i].fecha, notas := r.db.eventos[i].notas)
    ensures r.outcome == Done ==> forall i :: 0 <= i < |db.eventos| ==>
      if db.eventos[i].id == evento.value.id then r.db.eventos[i].fecha == fecha.value && r.db.eventos[i].notas == OrNull(notas)
      else r.db.eventos[i] == db.eventos[i]
    ensures ValidDb(db) ==> ValidDb(r.db)
  {
    if fecha.None? then Submission(Rejected(MissingFecha), db)
    else if evento.None? then Submission(Rejected(NoEvento), db)
    else if fail then Submission(UpdateFailed, db)
    else Submission(Done, WithEventoEdit(db, evento.value.id, fecha.value, OrNull(notas)))
  }

  /** The `useEffect` seeding: the event's date, and its notes with null shown as ''. */
  function SeedNotas(e: Evento): (s: string)
    ensures e.notas.Some? ==> s == e.notas.value
    ensures e.notas.None? ==> s == ""
  {
    e.notas.GetOr("")
  }

  /**
   * Opening the editor on an event whose notes are already normalised, and saving
   * without changes, leaves the events table as it was (given that no other
   * event shares its id).
   */
  lemma {:induction false} SeedThenSaveChangesNothing(db: Tables, e: Evento)
    requires forall i :: 0 <= i < |db.eventos| && HasId(db.eventos[i], e.id) ==> db.eventos[i] == e
    requires NormalText(e.notas)
    ensures Submit(db, Some(e), Some(e.fecha), SeedNotas(e), false) == Submission(Done, db)
  {
    var n := OrNull(SeedNotas(e));
    OrNullOfNormalText(e.notas);
    var es := EventosWithEdit(db.eventos, e.id, e.fecha, n);
    forall i | 0 <= i < |es| ensures es[i] == db.eventos[i] {
      if HasId(db.eventos[i], e.id) {
        assert db.eventos[i] == e;
      }
    }
    assert es == db.eventos;
    assert WithEventoEdit(db, e.id, e.fecha, n) == db;
  }

  /** The editor's state. `open` is the dialog flag the page showing the editor owns; `onClose` clears it. */
  class Modal {
    /** The date input; `None` while it is empty. */
    var fecha: Option<Day>
    var notas: string
    var open: bool

    constructor (open: bool)
      ensures fecha.None? && notas == "" && this.open == open
    {
      fecha := None;
      notas := "";
      this.open := open;
    }

    /** The effect on `[evento]`: a given event fills the fields; none leaves them. */
    method Seed(evento: Option<Evento>)
      modifies this`fecha, this`notas
      ensures evento.Some? ==> fecha == Some(evento.value.fecha) && notas == SeedNotas(evento.value)
      ensures evento.None? ==> fecha == old(fecha) && notas == old(notas)
    {
      if evento.Some? {
        fecha := Some(evento.value.fecha);
        notas := SeedNotas(evento.value);
      }
    }

    method EditFecha(d: Option<Day>)
      modifies this`fecha
      ensures fecha == d
    {
      fecha := d;
    }

    /** The notes field's `onChange`, which truncates the typed text. */
    method EditNotas(text: string)
      modifies this`notas
      ensures notas == Cap(text, NOTAS_MAX) && |notas| <= NOTAS_MAX
    {
      notas := Cap(text, NOTAS_MAX);
    }

    /** Dismissing the dialog closes it; the fields keep their values. */
    method HandleOpenChange(isOpen: bool)
      modifies this`open
      ensures open == (old(open) && isOpen)
    {
      if !isOpen {
        open := false;
      }
    }

    /** `handleSubmit`: a written update closes the dialog; the fields are left as they are. */
    method HandleSubmit(store: Store, evento: Option<Evento>, fail: bool) returns (o: Outcome)
      requires store.Valid()
      modifies this`open, store
      ensures store.Valid()
      ensures var r := Submit(old(store.Db()), evento, fecha, notas, fail); o == r.outcome && store.Db() == r.db
      ensures open == (old(open) && o != Done)
    {
      if fecha.None? {
        return Rejected(MissingFecha);
      }
      if evento.None? {
        return Rejected(NoEvento);
      }
      var ok := store.UpdateEvento(evento.value.id, fecha.value, OrNull(notas), fail);
      if !ok {
        return UpdateFailed;
      }
      open := false;
      return Done;
    }
  }
}
