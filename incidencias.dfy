/**
 * The farm's incident page: the incidents of the last 90 days, split into the
 * active ones (each with a button that resolves it) and the resolved ones, of
 * which the first ten are shown.
 */
module Incidencias {
  import opened Base
  import opened Seqs
  import opened Database
  import opened Persistence

  /** The window, in days, of the list the page asks for. */
  const DIAS: nat := 90

  /** The resolved list shows at most this many incidents. */
  const RESUELTAS_SHOWN: nat := 10

  predicate IsActive(i: Incidencia) {
    !i.resuelta
  }

  predicate IsResolved(i: Incidencia) {
    i.resuelta
  }

  /** `incidenciasActivas`. */
  function Activas(data: Option<seq<Incidencia>>): (r: seq<Incidencia>)
    ensures forall x :: x in r <==> x in OrEmpty(data) && !x.resuelta
  {
    Filter(OrEmpty(data), IsActive)
  }

  /** `incidenciasResueltas`. */
  function Resueltas(data: Option<seq<Incidencia>>): (r: seq<Incidencia>)
    ensures forall x :: x in r <==> x in OrEmpty(data) && x.resuelta
  {
    Filter(OrEmpty(data), IsResolved)
  }

  /**
   * The two lists split the loaded rows: every row is in exactly one of them,
   * as often as it was loaded, and each keeps the loaded order.
   */
  lemma Partition(data: Option<seq<Incidencia>>)
    ensures multiset(Activas(data)) + multiset(Resueltas(data)) == multiset(OrEmpty(data))
    ensures |Activas(data)| + |Resueltas(data)| == |OrEmpty(data)|
    ensures IsSubsequence(Activas(data), OrEmpty(data)) && IsSubsequence(Resueltas(data), OrEmpty(data))
    ensures forall x :: !(x in Activas(data) && x in Resueltas(data))
  {
    FilterPartition(OrEmpty(data), IsActive, IsResolved);
    FilterIsSubsequence(OrEmpty(data), IsActive);
    FilterIsSubsequence(OrEmpty(data), IsResolved);
  }

  /** The header's count, "{n} activas", which the active card's title repeats. */
  function ActiveCount(data: Option<seq<Incidencia>>): (n: nat)
    ensures n == |OrEmpty(data)| - |Resueltas(data)|
  {
    Partition(data);
    |Activas(data)|
  }

  /** The count is zero exactly when every loaded incident is resolved (the "Sin incidencias activas" case). */
  lemma NoActiveWhenAllResolved(data: Option<seq<Incidencia>>)
    ensures ActiveCount(data) == 0 <==> forall x :: x in OrEmpty(data) ==> x.resuelta
  {
    if Activas(data) != [] {
      assert Activas(data)[0] in Activas(data);
    }
  }

  /** The resolved incidents the page lists: `slice(0, 10)`. */
  function ShownResueltas(data: Option<seq<Incidencia>>): (r: seq<Incidencia>)
    ensures |r| == if |Resueltas(data)| < RESUELTAS_SHOWN then |Resueltas(data)| else RESUELTAS_SHOWN
    ensures r <= Resueltas(data)
  {
    var all := Resueltas(data);
    if |all| < RESUELTAS_SHOWN then all else all[..RESUELTAS_SHOWN]
  }

  /**
   * The resolve button: `update({ resuelta: true }).eq('id', id)`. Only the
   * incidents with that id change, and only in their flag; a failed update
   * changes nothing.
   */
  function Resolve(db: Tables, id: Id, fail: bool): (r: Submission)
    ensures r.outcome == (if fail then UpdateFailed else Done)
    ensures r.outcome != Done ==> r.db == db
    ensures r.db.cerdas == db.cerdas && r.db.eventos == db.eventos && r.db.nextId == db.nextId
    ensures r.db.verracos == db.verracos && r.db.profiles == db.profiles && r.db.userRoles == db.userRoles
    ensures |r.db.incidencias| == |db.incidencias|
    ensures forall i :: 0 <= i < |db.incidencias| ==>
      r.db.incidencias[i] == if r.outcome == Done && db.incidencias[i].id == id then db.incidencias[i].(resuelta := true)
                             else db.incidencias[i]
    ensures ValidDb(db) ==> ValidDb(r.db)
  {
    if fail then Submission(UpdateFailed, db) else Submission(Done, WithResuelta(db, id, true))
  }

  /** The test "some other incident than `id`". */
  function OtherThan(id: Id): Incidencia -> bool {
    (x: Incidencia) => x.id != id
  }

  /** Resolving an incident takes it, and only it, out of the active list; the rest keep their order. */
  lemma {:induction false} ResolveLeavesActive(rows: seq<Incidencia>, id: Id)
    ensures Filter(IncidenciasWithResuelta(rows, id, true), IsActive) == Filter(Filter(rows, IsActive), OtherThan(id))
  {
    var w := IncidenciasWithResuelta(rows, id, true);
    if rows != [] {
      assert w[1..] == IncidenciasWithResuelta(rows[1..], id, true);
      ResolveLeavesActive(rows[1..], id);
      if IsActive(rows[0]) {
        assert Filter(rows, IsActive) == [rows[0]] + Filter(rows[1..], IsActive);
        assert Filter(rows, IsActive)[1..] == Filter(rows[1..], IsActive);
      }
    }
  }

  /** As seen on the page: after a resolve, the active list is the old one without that incident. */
  lemma ResolvedLeavesPage(db: Tables, id: Id)
    ensures Activas(Some(Resolve(db, id, false).db.incidencias)) == Filter(Activas(Some(db.incidencias)), OtherThan(id))
    ensures forall x :: x in Activas(Some(Resolve(db, id, false).db.incidencias)) ==> x.id != id
  {
    ResolveLeavesActive(db.incidencias, id);
  }
}
