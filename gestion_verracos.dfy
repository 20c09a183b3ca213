/**
 * The boar administration page: a list of boars with an editor dialog that
 * creates a boar or edits one, a switch on each row that flips a boar's active
 * flag, and a delete button behind a confirmation.
 */
module GestionVerracos {
  import opened Base
  import opened Text
  import opened Database
  import opened Persistence

  /** `emptyForm`: no code, name or breed, and active. */
  const EmptyForm := VerracoData("", "", "", true)

  /** `handleOpen(verraco)`'s seeding: the boar's values, '' for a missing name or breed, active when the flag is missing. */
  function SeedForm(v: Verraco): (f: VerracoData)
    ensures f.codigo == v.codigo
    ensures f.nombre == (if v.nombre.Some? then v.nombre.value else "")
    ensures f.raza == (if v.raza.Some? then v.raza.value else "")
    ensures f.activo == (v.activo != Some(false))
  {
    VerracoData(v.codigo, v.nombre.GetOr(""), v.raza.GetOr(""), v.activo.GetOr(true))
  }

  /**
   * `handleSubmit` on the tables: a code that trims to nothing is refused; then
   * the boar being edited is updated with the form as it stands, or, when none is,
   * the form is inserted as a new boar. The code is checked trimmed but written as typed.
   */
  function Submit(db: Tables, editing: Option<Verraco>, form: VerracoData, fail: bool): (r: Submission)
    ensures r.outcome == Rejected(BlankCodigo) <==> IsBlank(form.codigo)
    ensures r.outcome == Done <==> !IsBlank(form.codigo) && !fail
    ensures r.outcome == UpdateFailed <==> !IsBlank(form.codigo) && fail && editing.Some?
    ensures r.outcome == InsertFailed <==> !IsBlank(form.codigo) && fail && editing.None?
    ensures r.outcome != Done ==> r.db == db
    ensures r.db.cerdas == db.cerdas && r.db.eventos == db.eventos && r.db.incidencias == db.incidencias
    ensures r.db.profiles == db.profiles && r.db.userRoles == db.userRoles
    ensures r.outcome == Done && editing.None? ==>
      r.db.verracos == db.verracos[db.nextId := Verraco(db.nextId, form.codigo, Some(form.nombre), Some(form.raza), Some(form.activo))]
    ensures r.outcome == Done && editing.Some? ==>
      && r.db.verracos.Keys == db.verracos.Keys
      && (forall k :: k in db.verracos && k != editing.value.id ==> r.db.verracos[k] == db.verracos[k])
      && (editing.value.id in db.verracos ==>
            var v := r.db.verracos[editing.value.id];
            v.codigo == form.codigo && v.nombre == Some(form.nombre) && v.raza == Some(form.raza) && v.activo == Some(form.activo))
    ensures ValidDb(db) ==> ValidDb(r.db)
  {
    if IsBlank(form.codigo) then Submission(Rejected(BlankCodigo), db)
    else if editing.Some? then
      if fail then Submission(UpdateFailed, db) else Submission(Done, WithVerracoEdit(db, editing.value.id, form))
    else
      if fail then Submission(InsertFailed, db) else Submission(Done, WithVerraco(db, form))
  }

  /** A code typed with blanks around it is accepted and stored with those blanks. */
  lemma CodigoStoredAsTyped(db: Tables, form: VerracoData)
    requires ValidDb(db) && !IsBlank(form.codigo)
    ensures var r := Submit(db, None, form, false);
      r.outcome == Done && db.nextId !in db.verracos && r.db.verracos[db.nextId].codigo == form.codigo
  {
  }

  /**
   * Opening a stored boar whose name, breed and flag are all set, and saving
   * without changes, writes the row back as it was.
   */
  lemma {:induction false} SeedThenSaveChangesNothing(db: Tables, v: Verraco)
    requires v.id in db.verracos && db.verracos[v.id] == v && !IsBlank(v.codigo)
    requires v.nombre.Some? && v.raza.Some? && v.activo.Some?
    ensures Submit(db, Some(v), SeedForm(v), false) == Submission(Done, db)
  {
    var f := SeedForm(v);
    assert v.(codigo := f.codigo, nombre := Some(f.nombre), raza := Some(f.raza), activo := Some(f.activo)) == v;
    RewriteSameKey(db.verracos, v.id);
    assert WithVerracoEdit(db, v.id, f) == db;
  }

  /** The value `toggleActivo` writes: `!verraco.activo`, so a missing flag becomes active. */
  function Flipped(v: Verraco): (b: bool)
    ensures v.activo.Some? ==> b == !v.activo.value
    ensures v.activo.None? ==> b
  {
    !v.activo.GetOr(false)
  }

  /** `toggleActivo`, through the update mutation: the active flag of that boar, and nothing else. */
  function Toggle(db: Tables, v: Verraco, fail: bool): (r: Submission)
    ensures r.outcome == (if fail then UpdateFailed else Done)
    ensures r.outcome != Done ==> r.db == db
    ensures r.db.cerdas == db.cerdas && r.db.eventos == db.eventos && r.db.nextId == db.nextId
    ensures r.db.incidencias == db.incidencias && r.db.profiles == db.profiles && r.db.userRoles == db.userRoles
    ensures r.db.verracos.Keys == db.verracos.Keys
    ensures forall k :: k in db.verracos && k != v.id ==> r.db.verracos[k] == db.verracos[k]
    ensures r.outcome == Done && v.id in db.verracos ==>
      r.db.verracos[v.id] == db.verracos[v.id].(activo := Some(Flipped(v)))
    ensures ValidDb(db) ==> ValidDb(r.db)
  {
    if fail then Submission(UpdateFailed, db) else Submission(Done, WithVerracoActivo(db, v.id, Flipped(v)))
  }

  /** Flipping a boar's switch twice, each time on the row as stored, restores the row, once the flag is set. */
  lemma {:induction false} ToggleTwiceRestores(db: Tables, id: Id)
    requires id in db.verracos && db.verracos[id].id == id && db.verracos[id].activo.Some?
    ensures var once := Toggle(db, db.verracos[id], false).db;
      Toggle(once, once.verracos[id], false).db == db
  {
    var v := db.verracos[id];
    var once := Toggle(db, v, false).db;
    assert once.verracos[id] == v.(activo := Some(!v.activo.value));
    var twice := Toggle(once, once.verracos[id], false).db;
    assert twice.verracos == db.verracos[id := v][id := v];
    RewriteSameKey(db.verracos, id);
  }

  /** The delete button: nothing without confirmation; otherwise the boar's row is removed. */
  function Delete(db: Tables, id: Id, confirmed: bool, fail: bool): (r: Submission)
    ensures r.outcome == Rejected(NotConfirmed) <==> !confirmed
    ensures r.outcome == Done <==> confirmed && !fail
    ensures r.outcome != Done ==> r.db == db
    ensures r.db.cerdas == db.cerdas && r.db.eventos == db.eventos && r.db.nextId == db.nextId
    ensures r.db.incidencias == db.incidencias && r.db.profiles == db.profiles && r.db.userRoles == db.userRoles
    ensures r.outcome == Done ==>
      && id !in r.db.verracos && r.db.verracos.Keys == db.verracos.Keys - {id}
      && forall k :: k in r.db.verracos ==> r.db.verracos[k] == db.verracos[k]
    ensures ValidDb(db) ==> ValidDb(r.db)
  {
    if !confirmed then Submission(Rejected(NotConfirmed), db)
    else if fail then Submission(UpdateFailed, db)
    else Submission(Done, WithoutVerraco(db, id))
  }

  /** The page's editor state: whether the dialog is open, which boar it edits, and the form. */
  class Editor {
    var isOpen: bool
    var editing: Option<Verraco>
    var form: VerracoData

    /** The editor is at rest: closed, editing nothing, with the empty form. */
    predicate AtRest()
      reads this
    {
      !isOpen && editing.None? && form == EmptyForm
    }

    constructor ()
      ensures AtRest()
    {
      isOpen := false;
      editing := None;
      form := EmptyForm;
    }

    /** `handleOpen`: for a boar, edit it with its values; for none, a new boar with the empty form. */
    method HandleOpen(verraco: Option<Verraco>)
      modifies this
      ensures isOpen && editing == verraco
      ensures form == if verraco.Some? then SeedForm(verraco.value) else EmptyForm
    {
      if verraco.Some? {
        editing := verraco;
        form := SeedForm(verraco.value);
      } else {
        editing := None;
        form := EmptyForm;
      }
      isOpen := true;
    }

    /** `handleClose`. */
    method HandleClose()
      modifies this
      ensures AtRest()
    {
      isOpen := false;
      editing := None;
      form := EmptyForm;
    }

    /** The dialog's `onOpenChange={setIsOpen}`: only the open flag changes; the form and the boar stay. */
    method OnOpenChange(open: bool)
      modifies this`isOpen
      ensures isOpen == open
    {
      isOpen := open;
    }

    method EditCodigo(text: string)
      modifies this`form
      ensures form == old(form).(codigo := text)
    {
      form := form.(codigo := text);
    }

    method EditNombre(text: string)
      modifies this`form
      ensures form == old(form).(nombre := text)
    {
      form := form.(nombre := text);
    }

    method EditRaza(text: string)
      modifies this`form
      ensures form == old(form).(raza := text)
    {
      form := form.(raza := text);
    }

    method SetActivo(b: bool)
      modifies this`form
      ensures form == old(form).(activo := b)
    {
      form := form.(activo := b);
    }

    /** `handleSubmit` with its mutation: a written create or update closes the editor. */
    method HandleSubmit(store: Store, fail: bool) returns (o: Outcome)
      requires store.Valid()
      modifies this, store
      ensures store.Valid()
      ensures var r := Submit(old(store.Db()), old(editing), old(form), fail); o == r.outcome && store.Db() == r.db
      ensures if o == Done then AtRest() else unchanged(this)
    {
      if IsBlank(form.codigo) {
        return Rejected(BlankCodigo);
      }
      var ok;
      if editing.Some? {
        ok := store.UpdateVerraco(editing.value.id, form, fail);
        o := if ok then Done else UpdateFailed;
      } else {
        ok := store.InsertVerraco(form, fail);
        o := if ok then Done else InsertFailed;
      }
      if ok {
        HandleClose();
      }
    }

    /**
     * `toggleActivo`: it goes through the same update mutation, so a written flip
     * also runs `handleClose`, whatever the editor was showing.
     */
    method ToggleActivo(store: Store, verraco: Verraco, fail: bool) returns (o: Outcome)
      requires store.Valid()
      modifies this, store
      ensures store.Valid()
      ensures var r := Toggle(old(store.Db()), verraco, fail); o == r.outcome && store.Db() == r.db
      ensures if o == Done then AtRest() else unchanged(this)
    {
      var ok := store.UpdateVerracoActivo(verraco.id, Flipped(verraco), fail);
      o := if ok then Done else UpdateFailed;
      if ok {
        HandleClose();
      }
    }

    /** The delete button of a row: the editor is not touched. */
    method DeleteClicked(store: Store, id: Id, confirmed: bool, fail: bool) returns (o: Outcome)
      requires store.Valid()
      modifies store
      ensures store.Valid()
      ensures var r := Delete(old(store.Db()), id, confirmed, fail); o == r.outcome && store.Db() == r.db
    {
      if !confirmed {
        return Rejected(NotConfirmed);
      }
      var ok := store.DeleteVerraco(id, fail);
      o := if ok then Done else UpdateFailed;
    }
  }
}
