/**
 * The dashboard's figures, computed in one pass over the active sows: how many
 * there are, how many in each state, the means of the historical figures of the
 * sows that have any, and how many have been dry for more than sixty days;
 * beside them the counts of unresolved incidents, in all and in the last day.
 */
module Dashboard {
  import opened Base
  import opened Seqs
  import opened Database

  /** A sow counts as long dry when its row last changed more than this many days ago. */
  const DIAS_SECA: int := 60

  /** The moment before which a dry sow's last change makes it long dry. */
  function Cutoff(now: Instant): Instant {
    now - DIAS_SECA * MS_PER_DAY
  }

  datatype DashboardStats = DashboardStats(
    totalCerdas: nat,
    /** Only the states some sow is in have an entry. */
    cerdasPorEstado: map<EstadoCerda, nat>,
    incidenciasActivas: nat,
    incidenciasUltimas24h: nat,
    mediaDestetados: real,
    mediaNacidosVivos: real,
    mediaViabilidad: real,
    cerdasSecasProlongadas: nat)

  /** A sow's figures enter the means when its born-alive mean is present and above zero. */
  predicate Contributes(c: CerdaRow) {
    c.medios.Some? && c.medios.value.nacidosVivos.Some? && c.medios.value.nacidosVivos.value > 0.0
  }

  /** Dry by its state (a missing state reads as `en_servicio`), last changed before the cutoff. */
  predicate SecaProlongada(c: CerdaRow, cutoff: Instant) {
    EstadoOr(c) == Seca && c.updatedAt.Some? && c.updatedAt.value < cutoff
  }

  /** The born-alive figure a contributing sow adds. */
  function Vivos(c: CerdaRow): real
    requires Contributes(c)
  {
    c.medios.value.nacidosVivos.value
  }

  /** The two other figures it adds: a missing one adds 0. */
  function Destetados(c: CerdaRow): real
    requires c.medios.Some?
  {
    c.medios.value.destetados.GetOr(0.0)
  }

  function Viabilidad(c: CerdaRow): real
    requires c.medios.Some?
  {
    c.medios.value.viabilidad.GetOr(0.0)
  }

  // The running figures of the loop, as functions of the sows seen so far. Each
  // takes the list apart at its end, as the loop extends it.

  /** The sows in state `e`, a missing state read as `en_servicio`. */
  function CountIn(cs: seq<CerdaRow>, e: EstadoCerda): (n: nat)
    ensures n <= |cs|
  {
    if cs == [] then 0 else CountIn(cs[..|cs| - 1], e) + (if EstadoOr(cs[|cs| - 1]) == e then 1 else 0)
  }

  /** `cerdasPorEstado` as the loop builds it: one entry per state met, incremented at each sow. */
  function PorEstado(cs: seq<CerdaRow>): map<EstadoCerda, nat> {
    if cs == [] then map[]
    else
      var m := PorEstado(cs[..|cs| - 1]);
      var e := EstadoOr(cs[|cs| - 1]);
      m[e := (if e in m then m[e] else 0) + 1]
  }

  function ConMedios(cs: seq<CerdaRow>): (n: nat)
    ensures n <= |cs|
  {
    if cs == [] then 0 else ConMedios(cs[..|cs| - 1]) + (if Contributes(cs[|cs| - 1]) then 1 else 0)
  }

  function SumVivos(cs: seq<CerdaRow>): real {
    if cs == [] then 0.0
    else SumVivos(cs[..|cs| - 1]) + (if Contributes(cs[|cs| - 1]) then Vivos(cs[|cs| - 1]) else 0.0)
  }

  function SumDestetados(cs: seq<CerdaRow>): real {
    if cs == [] then 0.0
    else SumDestetados(cs[..|cs| - 1]) + (if Contributes(cs[|cs| - 1]) then Destetados(cs[|cs| - 1]) else 0.0)
  }

  function SumViabilidad(cs: seq<CerdaRow>): real {
    if cs == [] then 0.0
    else SumViabilidad(cs[..|cs| - 1]) + (if Contributes(cs[|cs| - 1]) then Viabilidad(cs[|cs| - 1]) else 0.0)
  }

  function SecasProlongadas(cs: seq<CerdaRow>, cutoff: Instant): (n: nat)
    ensures n <= |cs|
  {
    if cs == [] then 0 else SecasProlongadas(cs[..|cs| - 1], cutoff) + (if SecaProlongada(cs[|cs| - 1], cutoff) then 1 else 0)
  }

  /** `cerdasConMedios > 0 ? total / cerdasConMedios : 0`. */
  function Mean(total: real, n: nat): real {
    if n > 0 then total / (n as real) else 0.0
  }

  /** The figures the query returns, from the three reads (each `None` when it failed). */
  function Stats(cerdas: Option<seq<CerdaRow>>, activas: Option<seq<Incidencia>>, ultimas24h: Option<seq<Incidencia>>,
                 now: Instant): DashboardStats
  {
    var cs := OrEmpty(cerdas);
    var n := ConMedios(cs);
    DashboardStats(|cs|, PorEstado(cs), LengthOrZero(activas), LengthOrZero(ultimas24h),
                   Mean(SumDestetados(cs), n), Mean(SumVivos(cs), n), Mean(SumViabilidad(cs), n),
                   SecasProlongadas(cs, Cutoff(now)))
  }

  /** The `queryFn`: the `forEach` over the sows read, then the returned figures. */
  method ComputeStats(cerdasRes: Option<seq<CerdaRow>>, incidenciasRes: Option<seq<Incidencia>>,
                      incidencias24hRes: Option<seq<Incidencia>>, now: Instant) returns (s: DashboardStats)
    ensures s == Stats(cerdasRes, incidenciasRes, incidencias24hRes, now)
  {
    var cerdas := OrEmpty(cerdasRes);
    var cerdasPorEstado: map<EstadoCerda, nat> := map[];
    var totalNacidosVivos, totalDestetados, totalViabilidad := 0.0, 0.0, 0.0;
    var cerdasConMedios, cerdasSecasProlongadas := 0, 0;
    var sessentaDiasAtras := Cutoff(now);
    var i := 0;
    while i < |cerdas|
      invariant 0 <= i <= |cerdas|
      invariant cerdasPorEstado == PorEstado(cerdas[..i])
      invariant cerdasConMedios == ConMedios(cerdas[..i])
      invariant totalNacidosVivos == SumVivos(cerdas[..i])
      invariant totalDestetados == SumDestetados(cerdas[..i])
      invariant totalViabilidad == SumViabilidad(cerdas[..i])
      invariant cerdasSecasProlongadas == SecasProlongadas(cerdas[..i], sessentaDiasAtras)
    {
      var cerda := cerdas[i];
      assert cerdas[..i + 1][..i] == cerdas[..i] && cerdas[..i + 1][i] == cerda;
      var estado := EstadoOr(cerda);
      cerdasPorEstado := cerdasPorEstado[estado := (if estado in cerdasPorEstado then cerdasPorEstado[estado] else 0) + 1];
      if Contributes(cerda) {
        totalNacidosVivos := totalNacidosVivos + Vivos(cerda);
        totalDestetados := totalDestetados + Destetados(cerda);
        totalViabilidad := totalViabilidad + Viabilidad(cerda);
        cerdasConMedios := cerdasConMedios + 1;
      }
      if SecaProlongada(cerda, sessentaDiasAtras) {
        cerdasSecasProlongadas := cerdasSecasProlongadas + 1;
      }
      i := i + 1;
    }
    assert cerdas[..i] == cerdas;
    s := DashboardStats(|cerdas|, cerdasPorEstado, LengthOrZero(incidenciasRes), LengthOrZero(incidencias24hRes),
                        Mean(totalDestetados, cerdasConMedios), Mean(totalNacidosVivos, cerdasConMedios),
                        Mean(totalViabilidad, cerdasConMedios), cerdasSecasProlongadas);
  }

  /** The per-state map holds exactly the states some sow is in, each with the number of sows in it. */
  lemma {:induction false} PorEstadoCounts(cs: seq<CerdaRow>)
    ensures forall e :: e in PorEstado(cs) <==> CountIn(cs, e) > 0
    ensures forall e :: e in PorEstado(cs) ==> PorEstado(cs)[e] == CountIn(cs, e)
  {
    if cs != [] {
      PorEstadoCounts(cs[..|cs| - 1]);
    }
  }

  /** Every sow is in exactly one state's count. */
  lemma {:induction false} CountsSumToTotal(cs: seq<CerdaRow>)
    ensures CountIn(cs, EnServicio) + CountIn(cs, Seca) + CountIn(cs, Cubierta) + CountIn(cs, Gestante)
          + CountIn(cs, EstadoCerda.Parto) + CountIn(cs, EstadoCerda.Destete) + CountIn(cs, EstadoCerda.Baja) == |cs|
  {
    if cs != [] {
      CountsSumToTotal(cs[..|cs| - 1]);
    }
  }

  /** The long-dry sows are among the dry ones. */
  lemma {:induction false} SecasWithinSeca(cs: seq<CerdaRow>, cutoff: Instant)
    ensures SecasProlongadas(cs, cutoff) <= CountIn(cs, Seca)
  {
    if cs != [] {
      SecasWithinSeca(cs[..|cs| - 1], cutoff);
    }
  }

  /** A sow without a stored state is counted as in service. */
  lemma {:induction false} MissingStateCountsInService(cs: seq<CerdaRow>, c: CerdaRow)
    requires c.estado.None?
    ensures CountIn(cs + [c], EnServicio) == CountIn(cs, EnServicio) + 1
    ensures forall e :: e != EnServicio ==> CountIn(cs + [c], e) == CountIn(cs, e)
  {
    assert (cs + [c])[..|cs|] == cs;
  }

  /** The born-alive sum is above zero as soon as one sow contributes. */
  lemma {:induction false} VivosPositive(cs: seq<CerdaRow>)
    ensures ConMedios(cs) > 0 <==> SumVivos(cs) > 0.0
    ensures SumVivos(cs) >= 0.0
  {
    if cs != [] {
      VivosPositive(cs[..|cs| - 1]);
    }
  }

  /** The mean of a positive total over some sows is positive. */
  lemma MeanOfPositive(total: real, n: nat)
    requires total > 0.0 && n > 0
    ensures Mean(total, n) > 0.0
  {
    assert (n as real) > 0.0;
  }

  /** What the returned figures add up to. */
  lemma StatsProperties(cerdas: Option<seq<CerdaRow>>, activas: Option<seq<Incidencia>>, ultimas24h: Option<seq<Incidencia>>,
                        now: Instant)
    ensures var s := Stats(cerdas, activas, ultimas24h, now);
      && s.totalCerdas == |OrEmpty(cerdas)|
      && (forall e :: e in s.cerdasPorEstado ==> 0 < s.cerdasPorEstado[e] <= s.totalCerdas)
      && ConMedios(OrEmpty(cerdas)) <= s.totalCerdas
      && s.cerdasSecasProlongadas <= (if Seca in s.cerdasPorEstado then s.cerdasPorEstado[Seca] else 0)
      && (ConMedios(OrEmpty(cerdas)) == 0 ==> s.mediaDestetados == 0.0 && s.mediaNacidosVivos == 0.0 && s.mediaViabilidad == 0.0)
      && (ConMedios(OrEmpty(cerdas)) > 0 ==> s.mediaNacidosVivos > 0.0)
      && s.incidenciasActivas == |OrEmpty(activas)| && s.incidenciasUltimas24h == |OrEmpty(ultimas24h)|
      && (activas.None? ==> s.incidenciasActivas == 0) && (ultimas24h.None? ==> s.incidenciasUltimas24h == 0)
  {
    var cs := OrEmpty(cerdas);
    PorEstadoCounts(cs);
    SecasWithinSeca(cs, Cutoff(now));
    VivosPositive(cs);
    var n := ConMedios(cs);
    if n > 0 {
      MeanOfPositive(SumVivos(cs), n);
    }
  }
}
