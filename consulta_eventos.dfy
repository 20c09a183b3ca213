/**
 * The event schedule for a chosen day: the farrowings expected around that day
 * (114 days after a service, within three days either side), the ultrasound
 * checks due (21 days after a service of a sow still served, within two days),
 * and the counts of active sows waiting to be served and waiting to be weaned.
 * Dates are day numbers, so a difference of dates is a difference of integers.
 */
module ConsultaEventos {
  import opened Base
  import opened Text
  import opened Seqs
  import opened Database
  import opened Persistence

  /** Days from service to farrowing. */
  const DIAS_GESTACION: int := 114

  /** Days from service to the confirming ultrasound. */
  const DIAS_CONFIRMACION: int := 21

  /** How far, in days, an expected farrowing may fall from the chosen day. */
  const VENTANA_PARTO: int := 3

  /** How far, in days, a due ultrasound may fall from the chosen day. */
  const VENTANA_ECOGRAFIA: int := 2

  /** A service event joined with the columns of its sow that the page reads. */
  datatype ServiceRow = ServiceRow(evento: Evento, cerda: CerdaRow)

  /**
   * The service-event query: events of type `cubricion` whose sow exists and is
   * active, each with its sow (an inner join). Rows are in stored order.
   */
  function ServiceEvents(es: seq<Evento>, cerdas: map<Id, CerdaRow>): (r: seq<ServiceRow>)
    ensures |r| <= |es|
    ensures forall i :: 0 <= i < |r| ==>
      && r[i].evento in es && r[i].evento.tipo == Cubricion
      && r[i].evento.cerdaId in cerdas && r[i].cerda == cerdas[r[i].evento.cerdaId] && r[i].cerda.activa == Some(true)
    ensures forall e :: e in es && e.tipo == Cubricion && e.cerdaId in cerdas && cerdas[e.cerdaId].activa == Some(true) ==>
      ServiceRow(e, cerdas[e.cerdaId]) in r
  {
    if es == [] then []
    else
      var rest := ServiceEvents(es[1..], cerdas);
      var e := es[0];
      if e.tipo == Cubricion && e.cerdaId in cerdas && cerdas[e.cerdaId].activa == Some(true) then
        [ServiceRow(e, cerdas[e.cerdaId])] + rest
      else rest
  }

  function Abs(x: int): (r: nat)
    ensures r == x || r == -x
  {
    if x < 0 then -x else x
  }

  /** `addDays(fecha, DIAS_GESTACION)`. */
  function PartoEsperado(fecha: Day): Day {
    fecha + DIAS_GESTACION
  }

  /** `addDays(fecha, DIAS_CONFIRMACION)`. */
  function EcografiaEsperada(fecha: Day): Day {
    fecha + DIAS_CONFIRMACION
  }

  /** The farrowing filter's test for the chosen day. No state of the sow is looked at. */
  function DueForFarrowing(day: Day): ServiceRow -> bool {
    (s: ServiceRow) => Abs(PartoEsperado(s.evento.fecha) - day) <= VENTANA_PARTO
  }

  /** The ultrasound filter's test for the chosen day: the sow must be `cubierta`. */
  function DueForCheck(day: Day): ServiceRow -> bool {
    (s: ServiceRow) => s.cerda.estado == Some(Cubierta) && Abs(EcografiaEsperada(s.evento.fecha) - day) <= VENTANA_ECOGRAFIA
  }

  /** A listed row with the date it is listed for. */
  datatype Scheduled = Scheduled(row: ServiceRow, expected: Day)

  /** The `map` that adds the expected date, `offset` days after the service. */
  function WithExpected(rows: seq<ServiceRow>, offset: int): (r: seq<Scheduled>)
    ensures |r| == |rows|
    ensures forall i :: 0 <= i < |r| ==> r[i].row == rows[i] && r[i].expected == rows[i].evento.fecha + offset
  {
    seq(|rows|, i requires 0 <= i < |rows| => Scheduled(rows[i], rows[i].evento.fecha + offset))
  }

  /** The service rows of a schedule, in its order. */
  function Rows(s: seq<Scheduled>): (r: seq<ServiceRow>)
    ensures |r| == |s| && forall i :: 0 <= i < |s| ==> r[i] == s[i].row
  {
    seq(|s|, i requires 0 <= i < |s| => s[i].row)
  }

  /**
   * `cerdasPartoEsperado`: the service rows whose expected farrowing lies within
   * three days of the chosen day, in their loaded order, each with that date.
   */
  function PartosEsperados(data: Option<seq<ServiceRow>>, day: Day): (r: seq<Scheduled>)
    ensures forall i :: 0 <= i < |r| ==>
      r[i].expected == r[i].row.evento.fecha + DIAS_GESTACION && -VENTANA_PARTO <= r[i].expected - day <= VENTANA_PARTO
    ensures forall s :: s in Rows(r) <==> s in OrEmpty(data) && Abs(s.evento.fecha + DIAS_GESTACION - day) <= VENTANA_PARTO
    ensures IsSubsequence(Rows(r), OrEmpty(data))
  {
    var p := DueForFarrowing(day);
    var kept := Filter(OrEmpty(data), p);
    FilterIsSubsequence(OrEmpty(data), p);
    assert forall s :: p(s) <==> Abs(s.evento.fecha + DIAS_GESTACION - day) <= VENTANA_PARTO;
    var r := WithExpected(kept, DIAS_GESTACION);
    assert Rows(r) == kept;
    r
  }

  /**
   * `cerdasEcografia`: the service rows of sows still `cubierta` whose ultrasound
   * day lies within two days of the chosen day, in their loaded order, each with that date.
   */
  function EcografiasDebidas(data: Option<seq<ServiceRow>>, day: Day): (r: seq<Scheduled>)
    ensures forall i :: 0 <= i < |r| ==>
      && r[i].expected == r[i].row.evento.fecha + DIAS_CONFIRMACION && -VENTANA_ECOGRAFIA <= r[i].expected - day <= VENTANA_ECOGRAFIA
      && r[i].row.cerda.estado == Some(Cubierta)
    ensures forall s :: s in Rows(r) <==>
      s in OrEmpty(data) && s.cerda.estado == Some(Cubierta) && Abs(s.evento.fecha + DIAS_CONFIRMACION - day) <= VENTANA_ECOGRAFIA
    ensures IsSubsequence(Rows(r), OrEmpty(data))
  {
    var p := DueForCheck(day);
    var kept := Filter(OrEmpty(data), p);
    FilterIsSubsequence(OrEmpty(data), p);
    assert forall s :: p(s) <==>
      s.cerda.estado == Some(Cubierta) && Abs(s.evento.fecha + DIAS_CONFIRMACION - day) <= VENTANA_ECOGRAFIA;
    var r := WithExpected(kept, DIAS_CONFIRMACION);
    assert Rows(r) == kept;
    r
  }

  /** The farrowing list for a day takes the services of a seven-day range, 111 to 117 days earlier. */
  lemma FarrowingServiceRange(s: ServiceRow, day: Day)
    ensures DueForFarrowing(day)(s) <==> day - 117 <= s.evento.fecha <= day - 111
  {
  }

  /** The ultrasound list for a day takes the services of a five-day range, 19 to 23 days earlier. */
  lemma CheckServiceRange(s: ServiceRow, day: Day)
    ensures DueForCheck(day)(s) <==> s.cerda.estado == Some(Cubierta) && day - 23 <= s.evento.fecha <= day - 19
  {
  }

  /** On one chosen day a service is never listed both for farrowing and for ultrasound. */
  lemma NeverBothDue(data: Option<seq<ServiceRow>>, day: Day)
    ensures forall s :: !(s in Rows(PartosEsperados(data, day)) && s in Rows(EcografiasDebidas(data, day)))
  {
  }

  /** Whether a service is due for farrowing does not depend on its sow's state. */
  lemma FarrowingIgnoresState(s: ServiceRow, e: Option<EstadoCerda>, day: Day)
    ensures DueForFarrowing(day)(s) == DueForFarrowing(day)(s.(cerda := s.cerda.(estado := e)))
  {
  }

  /** Two services of the same sow that both fall in the window are both listed. */
  lemma BothServicesListed(a: ServiceRow, b: ServiceRow, day: Day)
    requires a.cerda == b.cerda && a != b
    requires DueForFarrowing(day)(a) && DueForFarrowing(day)(b)
    ensures |PartosEsperados(Some([a, b]), day)| == 2
  {
    var kept := Filter([a, b], DueForFarrowing(day));
    assert [a, b][1..] == [b];
    assert kept == [a, b];
  }

  /** The relative-day note under an expected farrowing: `differenceInDays(expected, chosen)` in words. */
  function RelativeLabel(diff: int): (s: string)
    ensures diff == 0 ==> s == "Hoy"
    ensures diff > 0 ==> s == "En " + NatToString(diff) + " d\U{ed}as"
    ensures diff < 0 ==> s == "Hace " + NatToString(-diff) + " d\U{ed}as"
  {
    if diff == 0 then "Hoy"
    else if diff > 0 then "En " + IntToString(diff) + " d\U{ed}as"
    else "Hace " + IntToString(Abs(diff)) + " d\U{ed}as"
  }

  /** `pre + m + post == pre + n + post` only when `m == n`. */
  lemma MiddleEqual(pre: string, m: string, n: string, post: string)
    requires pre + m + post == pre + n + post
    ensures m == n
  {
    var a := pre + m + post;
    assert |m| == |n|;
    assert m == a[|pre|..|pre| + |m|];
    assert n == (pre + n + post)[|pre|..|pre| + |n|];
  }

  /** The first two letters of the note tell its three forms apart. */
  lemma LabelHead(d: int)
    ensures |RelativeLabel(d)| >= 3
    ensures RelativeLabel(d)[..2] == if d == 0 then "Ho" else if d > 0 then "En" else "Ha"
  {
  }

  /** Different day differences read differently, so the note names the difference exactly. */
  lemma RelativeLabelInjective(a: int, b: int)
    requires RelativeLabel(a) == RelativeLabel(b)
    ensures a == b
  {
    LabelHead(a);
    LabelHead(b);
    assert (a == 0) == (b == 0) && (a > 0) == (b > 0);
    if a > 0 {
      MiddleEqual("En ", IntToString(a), IntToString(b), " d\U{ed}as");
      IntToStringInjective(a, b);
    } else if a < 0 {
      MiddleEqual("Hace ", IntToString(-a), IntToString(-b), " d\U{ed}as");
      IntToStringInjective(-a, -b);
    }
  }

  /** The active sows in a given state, which the "A Cubrir" (`en_servicio`) and "Destete" (`parto`) tabs count. */
  function ActiveIn(db: Tables, e: EstadoCerda): (ids: set<Id>)
    ensures forall k :: k in ids ==> k in db.cerdas && db.cerdas[k].estado == Some(e) && db.cerdas[k].activa == Some(true)
    ensures forall k :: k in db.cerdas && db.cerdas[k].estado == Some(e) && db.cerdas[k].activa == Some(true) ==> k in ids
  {
    set k | k in db.cerdas && db.cerdas[k].estado == Some(e) && db.cerdas[k].activa == Some(true)
  }

  /** No sow is counted in two tabs: a sow waiting to be served is not waiting to be weaned. */
  lemma TabsDisjoint(db: Tables)
    ensures ActiveIn(db, EnServicio) !! ActiveIn(db, EstadoCerda.Parto)
  {
  }
}
