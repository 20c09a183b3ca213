/**
 * How the three event forms move a sow through its life, seen together: the
 * tab each state puts a sow in, and the bookkeeping between a sow's parity and
 * the farrowings recorded for it. The sow page shows the farrowing form without
 * the sow's parity (src/pages/FichaCerda.tsx:377-383), so a farrowing recorded
 * there writes a null parity; the model states that and the parity the page
 * evidently meant to pass.
 */
module Lifecycle {
  import opened Base
  import opened Database
  import opened Persistence
  import CubricionModal
  import PartoModal
  import DesteteModal
  import ConsultaEventos
  import NuevaCerda

  /** The farrowings recorded for sow `id`. */
  function PartoCount(es: seq<Evento>, id: Id): (n: nat)
    ensures n <= |es|
  {
    if es == [] then 0
    else PartoCount(es[..|es| - 1], id) + (if es[|es| - 1].tipo == TipoEvento.Parto && es[|es| - 1].cerdaId == id then 1 else 0)
  }

  /** Appending an event counts one more farrowing for a sow exactly when it is a farrowing of that sow. */
  lemma PartoCountAppend(es: seq<Evento>, e: Evento, id: Id)
    ensures PartoCount(es + [e], id) == PartoCount(es, id) + (if e.tipo == TipoEvento.Parto && e.cerdaId == id then 1 else 0)
  {
    assert (es + [e])[..|es|] == es;
  }

  /** Every sow's parity is the number of farrowings recorded for it. */
  predicate ParityConsistent(db: Tables) {
    forall k :: k in db.cerdas ==> db.cerdas[k].paridad == Some(PartoCount(db.eventos, k))
  }

  /** A sow registered with parity 0 before any event names it keeps the bookkeeping. */
  lemma {:induction false} NoEventsNoPartos(es: seq<Evento>, id: Id)
    requires forall i :: 0 <= i < |es| ==> es[i].cerdaId != id
    ensures PartoCount(es, id) == 0
  {
    if es != [] {
      NoEventsNoPartos(es[..|es| - 1], id);
    }
  }

  /** Registering a sow, under an id no event names yet, keeps the bookkeeping: it starts at parity 0. */
  lemma RegistrationKeepsParity(db: Tables, f: NuevaCerda.FormData, fail: bool)
    requires ParityConsistent(db)
    requires forall i :: 0 <= i < |db.eventos| ==> db.eventos[i].cerdaId != db.nextId
    ensures ParityConsistent(NuevaCerda.Submit(db, f, fail).db)
  {
    NoEventsNoPartos(db.eventos, db.nextId);
  }

  /** An event that is not a farrowing, with parities untouched, keeps the bookkeeping. */
  lemma KeptByOtherEvent(db: Tables, r: Tables)
    requires ParityConsistent(db)
    requires |r.eventos| == |db.eventos| + 1 && r.eventos[..|db.eventos|] == db.eventos
    requires r.eventos[|db.eventos|].tipo != TipoEvento.Parto
    requires r.cerdas.Keys == db.cerdas.Keys && forall k :: k in db.cerdas ==> r.cerdas[k].paridad == db.cerdas[k].paridad
    ensures ParityConsistent(r)
  {
    assert r.eventos == db.eventos + [r.eventos[|db.eventos|]];
    forall k | k in r.cerdas
      ensures r.cerdas[k].paridad == Some(PartoCount(r.eventos, k))
    {
      PartoCountAppend(db.eventos, r.eventos[|db.eventos|], k);
    }
  }

  /** A service, whatever its outcome, keeps the bookkeeping. */
  lemma ServiceKeepsParity(db: Tables, verracoId: Option<Id>, user: Option<Id>, cerdaId: Id, verracos: Option<seq<Verraco>>,
                           today: Day, notas: string, insertFails: bool, updateFails: bool)
    requires ParityConsistent(db)
    ensures ParityConsistent(CubricionModal.Submit(db, verracoId, user, cerdaId, verracos, today, notas, insertFails, updateFails).db)
  {
    var r := CubricionModal.Submit(db, verracoId, user, cerdaId, verracos, today, notas, insertFails, updateFails);
    if r.db != db {
      KeptByOtherEvent(db, r.db);
    }
  }

  /** A weaning, whatever its outcome, keeps the bookkeeping: it writes no parity. */
  lemma WeaningKeepsParity(db: Tables, user: Option<Id>, cerdaId: Id, lechones: int, pesoMedio: string,
                           today: Day, notas: string, insertFails: bool, updateFails: bool)
    requires ParityConsistent(db)
    ensures ParityConsistent(DesteteModal.Submit(db, user, cerdaId, lechones, pesoMedio, today, notas, insertFails, updateFails).db)
  {
    var r := DesteteModal.Submit(db, user, cerdaId, lechones, pesoMedio, today, notas, insertFails, updateFails);
    if r.db != db {
      KeptByOtherEvent(db, r.db);
    }
  }

  /** A farrowing recorded with the sow's current parity passed in keeps the bookkeeping. */
  lemma FarrowingKeepsParity(db: Tables, user: Id, cerdaId: Id, vivos: nat, muertos: nat, momificados: nat,
                             today: Day, notas: string)
    requires ParityConsistent(db) && cerdaId in db.cerdas
    ensures var r := PartoModal.Submit(db, Some(user), cerdaId, db.cerdas[cerdaId].paridad, vivos, muertos, momificados,
                                       today, notas, false, false);
      r.outcome == Done && ParityConsistent(r.db)
  {
    var r := PartoModal.Submit(db, Some(user), cerdaId, db.cerdas[cerdaId].paridad, vivos, muertos, momificados,
                               today, notas, false, false);
    var e := r.db.eventos[|db.eventos|];
    assert r.db.eventos == db.eventos + [e];
    forall k | k in r.db.cerdas
      ensures r.db.cerdas[k].paridad == Some(PartoCount(r.db.eventos, k))
    {
      PartoCountAppend(db.eventos, e, k);
    }
  }

  /**
   * When the sow's update fails after the farrowing event was written, the
   * event stays and the parity falls one behind it.
   */
  lemma FailedUpdateBreaksParity(db: Tables, user: Id, cerdaId: Id, paridad: Option<int>, vivos: nat, muertos: nat,
                                 momificados: nat, today: Day, notas: string)
    requires ParityConsistent(db) && cerdaId in db.cerdas
    ensures var r := PartoModal.Submit(db, Some(user), cerdaId, paridad, vivos, muertos, momificados, today, notas, false, true);
      && r.outcome == UpdateFailed
      && r.db.cerdas[cerdaId].paridad == Some(PartoCount(r.db.eventos, cerdaId) - 1)
      && !ParityConsistent(r.db)
  {
    var r := PartoModal.Submit(db, Some(user), cerdaId, paridad, vivos, muertos, momificados, today, notas, false, true);
    var e := r.db.eventos[|db.eventos|];
    assert r.db.eventos == db.eventos + [e];
    PartoCountAppend(db.eventos, e, cerdaId);
  }

  /** The parity the sow page hands the farrowing form, as written: none, because the prop is left out. */
  function FichaParidadAsWritten(c: CerdaRow): (p: Option<int>)
    ensures p.None?
  {
    None
  }

  /**
   * The parity the page evidently meant to hand over: `cerda.paridad`. A null
   * column added to 1 reads as 0 in JavaScript, so a missing parity counts as 0.
   */
  function FichaParidad(c: CerdaRow): (p: Option<int>)
    ensures p.Some? && (c.paridad.Some? ==> p == c.paridad) && (c.paridad.None? ==> p == Some(0))
  {
    Some(c.paridad.GetOr(0))
  }

  /** As written, a farrowing recorded from the sow page erases the sow's parity. */
  lemma FichaFarrowingErasesParidad(db: Tables, user: Id, cerdaId: Id, vivos: nat, muertos: nat, momificados: nat,
                                    today: Day, notas: string)
    requires cerdaId in db.cerdas
    ensures var r := PartoModal.Submit(db, Some(user), cerdaId, FichaParidadAsWritten(db.cerdas[cerdaId]),
                                       vivos, muertos, momificados, today, notas, false, false);
      r.outcome == Done && r.db.cerdas[cerdaId].paridad.None? && !ParityConsistent(r.db)
  {
  }

  /** A concrete case: a sow of parity 2 farrowing from her page ends with no parity, where 3 was meant. */
  lemma FichaFarrowingCounterexample()
    ensures var c := CerdaRow(0, "C-1", None, Some(Gestante), Some(2), None, None, None, Some(true), None);
      var db := Tables(map[0 := c], [], [], map[], [], [], 1);
      && PartoModal.Submit(db, Some(7), 0, FichaParidadAsWritten(c), 10, 1, 0, 100, "", false, false).db.cerdas[0].paridad == None
      && PartoModal.Submit(db, Some(7), 0, FichaParidad(c), 10, 1, 0, 100, "", false, false).db.cerdas[0].paridad == Some(3)
  {
  }

  /** With the parity passed, a farrowing from the sow page raises the parity by one and keeps the bookkeeping. */
  lemma FichaFarrowingIncrementsParidad(db: Tables, user: Id, cerdaId: Id, vivos: nat, muertos: nat, momificados: nat,
                                        today: Day, notas: string)
    requires cerdaId in db.cerdas
    ensures var r := PartoModal.Submit(db, Some(user), cerdaId, FichaParidad(db.cerdas[cerdaId]),
                                       vivos, muertos, momificados, today, notas, false, false);
      && r.outcome == Done
      && r.db.cerdas[cerdaId].paridad == Some(db.cerdas[cerdaId].paridad.GetOr(0) + 1)
      && r.db.cerdas[cerdaId].estado == Some(EstadoCerda.Parto)
      && (ParityConsistent(db) ==> ParityConsistent(r.db))
  {
    if ParityConsistent(db) {
      FarrowingKeepsParity(db, user, cerdaId, vivos, muertos, momificados, today, notas);
    }
  }

  /** A completed service takes the sow out of the "A Cubrir" tab and puts no other sow in or out. */
  lemma ServiceLeavesQueue(db: Tables, verracoId: Id, user: Id, cerdaId: Id, verracos: Option<seq<Verraco>>,
                           today: Day, notas: string)
    ensures var r := CubricionModal.Submit(db, Some(verracoId), Some(user), cerdaId, verracos, today, notas, false, false);
      ConsultaEventos.ActiveIn(r.db, EnServicio) == ConsultaEventos.ActiveIn(db, EnServicio) - {cerdaId}
  {
  }

  /** A completed farrowing of an active sow puts it in the "Destete" tab. */
  lemma FarrowingJoinsWeaningTab(db: Tables, user: Id, cerdaId: Id, paridad: Option<int>, vivos: nat, muertos: nat,
                                 momificados: nat, today: Day, notas: string)
    requires cerdaId in db.cerdas && db.cerdas[cerdaId].activa == Some(true)
    ensures var r := PartoModal.Submit(db, Some(user), cerdaId, paridad, vivos, muertos, momificados, today, notas, false, false);
      ConsultaEventos.ActiveIn(r.db, EstadoCerda.Parto) == ConsultaEventos.ActiveIn(db, EstadoCerda.Parto) + {cerdaId}
  {
  }

  /** A completed weaning takes the sow out of the "Destete" tab. */
  lemma WeaningLeavesWeaningTab(db: Tables, user: Id, cerdaId: Id, lechones: nat, pesoMedio: string, today: Day, notas: string)
    ensures var r := DesteteModal.Submit(db, Some(user), cerdaId, lechones, pesoMedio, today, notas, false, false);
      ConsultaEventos.ActiveIn(r.db, EstadoCerda.Parto) == ConsultaEventos.ActiveIn(db, EstadoCerda.Parto) - {cerdaId}
  {
  }
}
