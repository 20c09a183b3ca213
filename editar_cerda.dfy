/**
 * The administrative editor of a sow. It is seeded from the stored row, lets
 * every field be changed (any state and any parity, with no check on the
 * sow's history) and writes the normalised fields back in one update.
 */
module EditarCerdaModal {
  import opened Base
  import opened Text
  import opened Database
  import opened Persistence

  /** The editor's fields, as the inputs hold them. */
  datatype CerdaForm = CerdaForm(
    codigo: string,
    nombre: string,
    nave: string,
    origen: string,
    paridad: int,
    estado: EstadoCerda,
    activa: bool)

  /** The fields before any sow is loaded. */
  const EmptyForm := CerdaForm("", "", "", "", 0, EnServicio, true)

  /** The editor's own copy of the state labels, looked up by stored key. */
  function LocalLabel(key: string): Option<string> {
    if key == "en_servicio" then Some("En Servicio")
    else if key == "seca" then Some("Seca")
    else if key == "cubierta" then Some("Cubierta")
    else if key == "gestante" then Some("Gestante")
    else if key == "parto" then Some("Parto")
    else if key == "destete" then Some("Destete")
    else if key == "baja" then Some("Baja")
    else None
  }

  /** The text of a state option: `ESTADO_LABELS[estado] || estado`. */
  function OptionLabel(key: string): string {
    LocalLabel(key).GetOr(key)
  }

  /** The state select offers every state, each under the label the rest of the screens use. */
  lemma OptionsAgreeWithLabels()
    ensures forall e: EstadoCerda :: LocalLabel(EstadoKey(e)).Some?
    ensures forall e: EstadoCerda :: OptionLabel(EstadoKey(e)) == EstadoLabel(e)
    ensures forall k :: LocalLabel(k).Some? ==> EstadoFromKey(k).Some?
  {
  }

  /** The `useEffect` seeding: the row's values, with '' for missing text, 0 for a missing
      parity, `en_servicio` for a missing state and active when `activa` is missing. */
  function SeedForm(c: CerdaRow): (f: CerdaForm)
    ensures f.estado == EstadoOr(c) && (c.estado.Some? ==> f.estado == c.estado.value)
    ensures f.activa == (c.activa != Some(false))
    ensures f.codigo == c.codigo
    ensures f.nombre == (if c.nombre.Some? then c.nombre.value else "")
    ensures f.nave == (if c.nave.Some? then c.nave.value else "")
    ensures f.origen == (if c.origen.Some? then c.origen.value else "")
    ensures f.paridad == (if c.paridad.Some? then c.paridad.value else 0)
  {
    CerdaForm(c.codigo, c.nombre.GetOr(""), c.nave.GetOr(""), c.origen.GetOr(""),
              c.paridad.GetOr(0), EstadoOr(c), c.activa.GetOr(true))
  }

  /** The columns `handleSubmit` writes: trimmed code, and trimmed text or null for the rest. */
  function Normalise(f: CerdaForm): CerdaEdit {
    CerdaEdit(Trim(f.codigo), OrNull(f.nombre), OrNull(f.nave), OrNull(f.origen), f.paridad, f.estado, f.activa)
  }

  /**
   * `handleSubmit` on the tables: a code that trims to nothing is refused and
   * nothing is sent; otherwise one update writes the normalised fields. The
   * update fails when the store fails or when the trimmed code belongs to
   * another sow.
   */
  function Submit(db: Tables, cerdaId: Id, f: CerdaForm, fail: bool): (r: Submission)
    ensures r.outcome == Rejected(BlankCodigo) <==> IsBlank(f.codigo)
    ensures r.outcome == Done <==>
      !IsBlank(f.codigo) && !fail && !(cerdaId in db.cerdas && CodigoTaken(db, Trim(f.codigo), Some(cerdaId)))
    ensures r.outcome == Done || r.outcome == UpdateFailed || r.outcome == Rejected(BlankCodigo)
    ensures r.outcome != Done ==> r.db == db
    ensures r.db.eventos == db.eventos && SideTablesSame(db, r.db) && OnlySowChanged(db.cerdas, r.db.cerdas, cerdaId)
    ensures r.outcome == Done && cerdaId in db.cerdas ==>
      var c := r.db.cerdas[cerdaId];
      && c.codigo == Trim(f.codigo) && c.codigo != [] && !IsWhitespace(c.codigo[0])
      && c.nombre == OrNull(f.nombre) && c.nave == OrNull(f.nave) && c.origen == OrNull(f.origen)
      && c.paridad == Some(f.paridad) && c.estado == Some(f.estado) && c.activa == Some(f.activa)
      && c.medios == db.cerdas[cerdaId].medios
    ensures ValidDb(db) ==> ValidDb(r.db)
  {
    TrimShape(f.codigo);
    if Trim(f.codigo) == [] then Submission(Rejected(BlankCodigo), db)
    else if fail || (cerdaId in db.cerdas && CodigoTaken(db, Trim(f.codigo), Some(cerdaId))) then Submission(UpdateFailed, db)
    else Submission(Done, WithCerdaEdit(db, cerdaId, Normalise(f)))
  }

  /** An edit that is written never gives a sow a code another sow has. */
  lemma EditKeepsCodigosUnique(db: Tables, cerdaId: Id, f: CerdaForm, fail: bool)
    requires UniqueCodigos(db)
    ensures UniqueCodigos(Submit(db, cerdaId, f, fail).db)
  {
    var r := Submit(db, cerdaId, f, fail);
    if r.outcome == Done && cerdaId in db.cerdas {
      forall j, k | j in r.db.cerdas && k in r.db.cerdas && j != k
        ensures r.db.cerdas[j].codigo != r.db.cerdas[k].codigo
      {
        if j == cerdaId {
          assert r.db.cerdas[k] == db.cerdas[k];
        } else if k == cerdaId {
          assert r.db.cerdas[j] == db.cerdas[j];
        }
      }
    }
  }

  /** The override has no transition rule: from every state, every chosen state is written. */
  lemma AnyTransitionAccepted(db: Tables, cerdaId: Id, f: CerdaForm, e: EstadoCerda)
    requires cerdaId in db.cerdas && !IsBlank(f.codigo) && !CodigoTaken(db, Trim(f.codigo), Some(cerdaId))
    ensures Submit(db, cerdaId, f.(estado := e), false).db.cerdas[cerdaId].estado == Some(e)
  {
  }

  /** The columns the editor writes are already in the form the editor writes them. */
  predicate Normalised(c: CerdaRow) {
    c.codigo != [] && Trim(c.codigo) == c.codigo && NormalText(c.nombre) && NormalText(c.nave) && NormalText(c.origen)
    && c.paridad.Some? && c.estado.Some? && c.activa.Some?
  }

  /**
   * Opening the editor on a normalised sow whose code no other sow uses, and
   * saving without changes, writes the row back as it was.
   */
  lemma {:induction false} SeedThenSaveChangesNothing(db: Tables, cerdaId: Id)
    requires cerdaId in db.cerdas && Normalised(db.cerdas[cerdaId])
    requires !CodigoTaken(db, db.cerdas[cerdaId].codigo, Some(cerdaId))
    ensures var r := Submit(db, cerdaId, SeedForm(db.cerdas[cerdaId]), false);
      r.outcome == Done && r.db == db
  {
    var c := db.cerdas[cerdaId];
    var f := SeedForm(c);
    OrNullOfNormalText(c.nombre);
    OrNullOfNormalText(c.nave);
    OrNullOfNormalText(c.origen);
    assert Trim(f.codigo) == c.codigo;
    var n := Normalise(f);
    assert n == CerdaEdit(c.codigo, c.nombre, c.nave, c.origen, c.paridad.value, c.estado.value, c.activa.value);
    assert Submit(db, cerdaId, f, false) == Submission(Done, WithCerdaEdit(db, cerdaId, n));
    var c2 := c.(codigo := n.codigo, nombre := n.nombre, nave := n.nave, origen := n.origen,
                 paridad := Some(n.paridad), estado := Some(n.estado), activa := Some(n.activa));
    assert c2 == c;
    RewriteSameKey(db.cerdas, cerdaId);
    assert WithCerdaEdit(db, cerdaId, n) == db;
  }

  /** The editor's state. `open` is the dialog flag the page showing the editor owns; `onClose` clears it. */
  class Modal {
    var form: CerdaForm
    var open: bool

    constructor (open: bool)
      ensures form == EmptyForm && this.open == open
    {
      form := EmptyForm;
      this.open := open;
    }

    /** The effect on `[cerda, open]`: while open, the form shows the sow's row. */
    method Seed(c: CerdaRow)
      modifies this`form
      ensures form == if open then SeedForm(c) else old(form)
    {
      if open {
        form := SeedForm(c);
      }
    }

    method EditCodigo(text: string)
      modifies this`form
      ensures form == old(form).(codigo := text)
    {
      form := form.(codigo := text);
    }

    method EditNombre(text: string)
      modifies this`form
      ensures form == old(form).(nombre := text)
    {
      form := form.(nombre := text);
    }

    method EditNave(text: string)
      modifies this`form
      ensures form == old(form).(nave := text)
    {
      form := form.(nave := text);
    }

    method EditOrigen(text: string)
      modifies this`form
      ensures form == old(form).(origen := text)
    {
      form := form.(origen := text);
    }

    /** The parity input's `onChange`: `parseInt(value) || 0`. */
    method EditParidad(text: string)
      modifies this`form
      ensures form == old(form).(paridad := ParseIntOrZero(text))
    {
      form := form.(paridad := ParseIntOrZero(text));
    }

    method SelectEstado(e: EstadoCerda)
      modifies this`form
      ensures form == old(form).(estado := e)
    {
      form := form.(estado := e);
    }

    method SetActiva(b: bool)
      modifies this`form
      ensures form == old(form).(activa := b)
    {
      form := form.(activa := b);
    }

    /** Dismissing the dialog closes it; the form keeps its values. */
    method HandleOpenChange(isOpen: bool)
      modifies this`open
      ensures open == (old(open) && isOpen)
    {
      if !isOpen {
        open := false;
      }
    }

    /** `handleSubmit`: a written update closes the dialog; the form is left as it is. */
    method HandleSubmit(store: Store, cerdaId: Id, fail: bool) returns (o: Outcome)
      requires store.Valid()
      modifies this`open, store
      ensures store.Valid()
      ensures var r := Submit(old(store.Db()), cerdaId, form, fail); o == r.outcome && store.Db() == r.db
      ensures open == (old(open) && o != Done)
    {
      if Trim(form.codigo) == [] {
        o := Rejected(BlankCodigo);
      } else {
        var ok := store.UpdateCerda(cerdaId, Normalise(form), fail);
        if !ok {
          o := UpdateFailed;
        } else {
          open := false;
          o := Done;
        }
      }
    }
  }
}
