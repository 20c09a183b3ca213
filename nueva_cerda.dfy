/**
 * The registration page for a new sow: a code (required) and optional name,
 * origin and barn. The sow is created with the trimmed code, and optional
 * fields trimmed or left out; the page goes to the sow list only when the
 * creation succeeds.
 */
module NuevaCerda {
  import opened Base
  import opened Text
  import opened Database
  import opened Persistence

  /** The page's fields, as the inputs hold them. */
  datatype FormData = FormData(codigo: string, nombre: string, origen: string, nave: string)

  const EmptyForm := FormData("", "", "", "")

  /** The route the page goes to after a creation. */
  const LIST_ROUTE := "/cerdas"

  /**
   * `handleSubmit` on the tables: a code that trims to nothing is refused and
   * nothing is sent; otherwise the sow is inserted. The insert fails as a whole
   * when the store fails, and is refused when another sow already has the code.
   */
  function Submit(db: Tables, f: FormData, fail: bool): (r: Submission)
    ensures r.outcome == Rejected(BlankCodigo) <==> IsBlank(f.codigo)
    ensures r.outcome == Duplicate <==> !IsBlank(f.codigo) && !fail && CodigoTaken(db, Trim(f.codigo), None)
    ensures r.outcome == Done <==> !IsBlank(f.codigo) && !fail && !CodigoTaken(db, Trim(f.codigo), None)
    ensures r.outcome == Done || r.outcome == Duplicate || r.outcome == InsertFailed || r.outcome == Rejected(BlankCodigo)
    ensures r.outcome != Done <==> r.db == db
    ensures r.db.eventos == db.eventos && SideTablesSame(db, r.db)
    ensures r.outcome == Done ==>
      && r.db.cerdas.Keys == db.cerdas.Keys + {db.nextId}
      && (forall k :: k in db.cerdas && k != db.nextId ==> r.db.cerdas[k] == db.cerdas[k])
      && r.db.cerdas[db.nextId] == NewCerda(db.nextId, Trim(f.codigo), OrNull(f.nombre), OrNull(f.origen), OrNull(f.nave))
    ensures ValidDb(db) ==> ValidDb(r.db)
  {
    var codigo := Trim(f.codigo);
    if codigo == [] then Submission(Rejected(BlankCodigo), db)
    else if fail then Submission(InsertFailed, db)
    else if CodigoTaken(db, codigo, None) then Submission(Duplicate, db)
    else Submission(Done, WithCerda(db, codigo, OrNull(f.nombre), OrNull(f.origen), OrNull(f.nave)))
  }

  /**
   * The registered sow: under a fresh id, with a code that is neither empty nor
   * padded, starting in service with parity 0 and active, and with no history means.
   */
  lemma RegisteredSow(db: Tables, f: FormData, fail: bool)
    requires ValidDb(db) && Submit(db, f, fail).outcome == Done
    ensures db.nextId !in db.cerdas
    ensures var c := Submit(db, f, fail).db.cerdas[db.nextId];
      && c.id == db.nextId && c.codigo != [] && Trim(c.codigo) == c.codigo
      && c.estado == Some(EnServicio) && c.paridad == Some(0) && c.activa == Some(true) && c.medios.None?
      && c.nombre == OrNull(f.nombre) && c.origen == OrNull(f.origen) && c.nave == OrNull(f.nave)
  {
    TrimIdempotent(f.codigo);
  }

  /** The code column stays unique: a code already in use is refused, whatever else happens. */
  lemma {:induction false} KeepsCodigosUnique(db: Tables, f: FormData, fail: bool)
    requires ValidDb(db) && UniqueCodigos(db)
    ensures UniqueCodigos(Submit(db, f, fail).db)
  {
    var r := Submit(db, f, fail);
    if r.outcome == Done {
      var n := db.nextId;
      forall j, k | j in r.db.cerdas && k in r.db.cerdas && j != k
        ensures r.db.cerdas[j].codigo != r.db.cerdas[k].codigo
      {
        if j == n {
          assert !CodigoTaken(db, Trim(f.codigo), None);
          assert k in db.cerdas;
        } else if k == n {
          assert !CodigoTaken(db, Trim(f.codigo), None);
          assert j in db.cerdas;
        }
      }
    }
  }

  /**
   * The toast a registration ends with: the page's own message for a blank code;
   * then the creation hook's success, the duplicate-code message when the
   * store's error names the unique constraint, and the generic error otherwise.
   * No other outcome can come out of this page.
   */
  function Toast(o: Outcome): (t: Option<string>)
    ensures t.None? <==> (o.Rejected? && o != Rejected(BlankCodigo)) || o == UpdateFailed
    ensures o == Rejected(BlankCodigo) ==> t == Some("El c\U{f3}digo es obligatorio")
    ensures o == Done ==> t == Some("Cerda registrada correctamente")
    ensures o == Duplicate ==> t == Some("El c\U{f3}digo de cerda ya existe")
    ensures o == InsertFailed ==> t == Some("Error al registrar la cerda")
  {
    match o
    case Rejected(BlankCodigo) => Some("El c\U{f3}digo es obligatorio")
    case Done => Some("Cerda registrada correctamente")
    case Duplicate => Some("El c\U{f3}digo de cerda ya existe")
    case InsertFailed => Some("Error al registrar la cerda")
    case _ => None
  }

  /** Every submit of the page ends with a toast, and a blank code ends with the page's own message. */
  lemma {:induction false} EverySubmitToasts(db: Tables, f: FormData, fail: bool)
    ensures Toast(Submit(db, f, fail).outcome).Some?
    ensures Toast(Submit(db, f, fail).outcome) == Some("El c\U{f3}digo es obligatorio") <==> IsBlank(f.codigo)
  {
    var o := Submit(db, f, fail).outcome;
    if Toast(o) == Toast(Rejected(BlankCodigo)) {
      ToastsDistinct(o, Rejected(BlankCodigo));
    }
  }

  /** The four toasts are told apart: the message alone says which outcome it was. */
  lemma ToastsDistinct(a: Outcome, b: Outcome)
    requires Toast(a).Some? && Toast(a) == Toast(b)
    ensures a == b
  {
  }

  /** The page's state. `route` is where the router stands; creating a sow moves it to the list. */
  class Page {
    var formData: FormData
    var route: string

    constructor (route: string)
      ensures formData == EmptyForm && this.route == route
    {
      formData := EmptyForm;
      this.route := route;
    }

    method EditCodigo(text: string)
      modifies this`formData
      ensures formData == old(formData).(codigo := text)
    {
      formData := formData.(codigo := text);
    }

    method EditNombre(text: string)
      modifies this`formData
      ensures formData == old(formData).(nombre := text)
    {
      formData := formData.(nombre := text);
    }

    method EditOrigen(text: string)
      modifies this`formData
      ensures formData == old(formData).(origen := text)
    {
      formData := formData.(origen := text);
    }

    method EditNave(text: string)
      modifies this`formData
      ensures formData == old(formData).(nave := text)
    {
      formData := formData.(nave := text);
    }

    /**
     * `handleSubmit`: the page navigates to the list only after a creation; a
     * failure is reported by the creation hook and otherwise swallowed, and the
     * fields keep their values either way.
     */
    method HandleSubmit(store: Store, fail: bool) returns (o: Outcome)
      requires store.Valid()
      modifies this`route, store
      ensures store.Valid()
      ensures var r := Submit(old(store.Db()), formData, fail); o == r.outcome && store.Db() == r.db
      ensures route == if o == Done then LIST_ROUTE else old(route)
    {
      var codigo := Trim(formData.codigo);
      if codigo == [] {
        o := Rejected(BlankCodigo);
      } else {
        var ok, duplicate := store.InsertCerda(codigo, OrNull(formData.nombre), OrNull(formData.origen), OrNull(formData.nave), fail);
        if duplicate {
          o := Duplicate;
        } else if !ok {
          o := InsertFailed;
        } else {
          route := LIST_ROUTE;
          o := Done;
        }
      }
    }
  }
}
