/**
 * The domain vocabulary of src/types/database.ts: the sow states, the event
 * types and the user roles, their stored keys, their display labels and
 * colours, and the shapes of the stored rows.
 */
module Database {
  import opened Base

  /** The reproductive state of a sow. */
  datatype EstadoCerda = EnServicio | Seca | Cubierta | Gestante | Parto | Destete | Baja

  /** The kinds of lifecycle event. */
  datatype TipoEvento = Cubricion | Gestacion | Parto | Destete | Baja | Ecografia

  datatype AppRole = Admin | Tecnico

  /** The seven states, each once. */
  function AllEstados(): (r: seq<EstadoCerda>)
    ensures |r| == 7
    ensures forall e: EstadoCerda :: r[EstadoIndex(e)] == e
    ensures forall i, j :: 0 <= i < j < |r| ==> r[i] != r[j]
  {
    [EnServicio, Seca, Cubierta, Gestante, EstadoCerda.Parto, EstadoCerda.Destete, EstadoCerda.Baja]
  }

  /** The six event types, each once. */
  function AllTiposEvento(): (r: seq<TipoEvento>)
    ensures |r| == 6
    ensures forall t: TipoEvento :: r[TipoIndex(t)] == t
    ensures forall i, j :: 0 <= i < j < |r| ==> r[i] != r[j]
  {
    [Cubricion, Gestacion, TipoEvento.Parto, TipoEvento.Destete, TipoEvento.Baja, Ecografia]
  }

  /** The two roles, each once. */
  function AllRoles(): (r: seq<AppRole>)
    ensures |r| == 2 && r[0] != r[1]
    ensures forall a: AppRole :: r[RoleIndex(a)] == a
  {
    [Admin, Tecnico]
  }

  /** The position of a role in AllRoles. */
  function RoleIndex(a: AppRole): (i: nat)
    ensures i < 2
  {
    match a
    case Admin => 0
    case Tecnico => 1
  }

  /** The position of a state in AllEstados. */
  function EstadoIndex(e: EstadoCerda): (i: nat)
    ensures i < 7
  {
    match e
    case EnServicio => 0
    case Seca => 1
    case Cubierta => 2
    case Gestante => 3
    case Parto => 4
    case Destete => 5
    case Baja => 6
  }

  /** The position of an event type in AllTiposEvento. */
  function TipoIndex(t: TipoEvento): (i: nat)
    ensures i < 6
  {
    match t
    case Cubricion => 0
    case Gestacion => 1
    case Parto => 2
    case Destete => 3
    case Baja => 4
    case Ecografia => 5
  }

  /** The stored spelling of a state. */
  function EstadoKey(e: EstadoCerda): string {
    match e
    case EnServicio => "en_servicio"
    case Seca => "seca"
    case Cubierta => "cubierta"
    case Gestante => "gestante"
    case Parto => "parto"
    case Destete => "destete"
    case Baja => "baja"
  }

  /** The state a stored spelling denotes; nothing outside the seven spellings is a state. */
  function EstadoFromKey(s: string): (r: Option<EstadoCerda>)
    ensures r.Some? ==> EstadoKey(r.value) == s
    ensures r.None? <==> forall e: EstadoCerda :: EstadoKey(e) != s
  {
    if s == "en_servicio" then Some(EnServicio)
    else if s == "seca" then Some(Seca)
    else if s == "cubierta" then Some(Cubierta)
    else if s == "gestante" then Some(Gestante)
    else if s == "parto" then Some(EstadoCerda.Parto)
    else if s == "destete" then Some(EstadoCerda.Destete)
    else if s == "baja" then Some(EstadoCerda.Baja)
    else None
  }

  lemma EstadoKeyRoundTrip(e: EstadoCerda)
    ensures EstadoFromKey(EstadoKey(e)) == Some(e)
  {
  }

  /** The stored spelling of an event type. */
  function TipoKey(t: TipoEvento): string {
    match t
    case Cubricion => "cubricion"
    case Gestacion => "gestacion"
    case Parto => "parto"
    case Destete => "destete"
    case Baja => "baja"
    case Ecografia => "ecografia"
  }

  function TipoFromKey(s: string): (r: Option<TipoEvento>)
    ensures r.Some? ==> TipoKey(r.value) == s
    ensures r.None? <==> forall t: TipoEvento :: TipoKey(t) != s
  {
    if s == "cubricion" then Some(Cubricion)
    else if s == "gestacion" then Some(Gestacion)
    else if s == "parto" then Some(TipoEvento.Parto)
    else if s == "destete" then Some(TipoEvento.Destete)
    else if s == "baja" then Some(TipoEvento.Baja)
    else if s == "ecografia" then Some(Ecografia)
    else None
  }

  function RoleKey(a: AppRole): string {
    match a
    case Admin => "admin"
    case Tecnico => "tecnico"
  }

  function RoleFromKey(s: string): (r: Option<AppRole>)
    ensures r.Some? ==> RoleKey(r.value) == s
    ensures r.None? <==> forall a: AppRole :: RoleKey(a) != s
  {
    if s == "admin" then Some(Admin) else if s == "tecnico" then Some(Tecnico) else None
  }

  /** ESTADO_LABELS: a label for every state. */
  function EstadoLabel(e: EstadoCerda): string {
    match e
    case EnServicio => "En Servicio"
    case Seca => "Seca"
    case Cubierta => "Cubierta"
    case Gestante => "Gestante"
    case Parto => "Parto"
    case Destete => "Destete"
    case Baja => "Baja"
  }

  /** Reading a state back from its label: the labels are pairwise distinct. */
  function EstadoFromLabel(s: string): (r: Option<EstadoCerda>)
    ensures r.Some? ==> EstadoLabel(r.value) == s
    ensures r.None? <==> forall e: EstadoCerda :: EstadoLabel(e) != s
  {
    if s == "En Servicio" then Some(EnServicio)
    else if s == "Seca" then Some(Seca)
    else if s == "Cubierta" then Some(Cubierta)
    else if s == "Gestante" then Some(Gestante)
    else if s == "Parto" then Some(EstadoCerda.Parto)
    else if s == "Destete" then Some(EstadoCerda.Destete)
    else if s == "Baja" then Some(EstadoCerda.Baja)
    else None
  }

  lemma EstadoLabelRoundTrip(e: EstadoCerda)
    ensures EstadoFromLabel(EstadoLabel(e)) == Some(e)
  {
  }

  /** ESTADO_COLORS: a badge class for every state. */
  function EstadoColor(e: EstadoCerda): string {
    match e
    case EnServicio => "bg-estado-servicio text-white"
    case Seca => "bg-estado-seca text-white"
    case Cubierta => "bg-estado-cubierta text-white"
    case Gestante => "bg-estado-gestante text-white"
    case Parto => "bg-estado-parto text-white"
    case Destete => "bg-estado-destete text-white"
    case Baja => "bg-estado-baja text-white"
  }

  /** Reading a state back from its badge class: no two states share a colour. */
  function EstadoFromColor(s: string): (r: Option<EstadoCerda>)
    ensures r.Some? ==> EstadoColor(r.value) == s
    ensures r.None? <==> forall e: EstadoCerda :: EstadoColor(e) != s
  {
    if s == "bg-estado-servicio text-white" then Some(EnServicio)
    else if s == "bg-estado-seca text-white" then Some(Seca)
    else if s == "bg-estado-cubierta text-white" then Some(Cubierta)
    else if s == "bg-estado-gestante text-white" then Some(Gestante)
    else if s == "bg-estado-parto text-white" then Some(EstadoCerda.Parto)
    else if s == "bg-estado-destete text-white" then Some(EstadoCerda.Destete)
    else if s == "bg-estado-baja text-white" then Some(EstadoCerda.Baja)
    else None
  }

  /** TIPO_EVENTO_LABELS: a label for every event type. */
  function TipoEventoLabel(t: TipoEvento): string {
    match t
    case Cubricion => "Cubrición"
    case Gestacion => "Gestación"
    case Parto => "Parto"
    case Destete => "Destete"
    case Baja => "Baja"
    case Ecografia => "Ecografía"
  }

  function TipoFromLabel(s: string): (r: Option<TipoEvento>)
    ensures r.Some? ==> TipoEventoLabel(r.value) == s
    ensures r.None? <==> forall t: TipoEvento :: TipoEventoLabel(t) != s
  {
    if s == "Cubrición" then Some(Cubricion)
    else if s == "Gestación" then Some(Gestacion)
    else if s == "Parto" then Some(TipoEvento.Parto)
    else if s == "Destete" then Some(TipoEvento.Destete)
    else if s == "Baja" then Some(TipoEvento.Baja)
    else if s == "Ecografía" then Some(Ecografia)
    else None
  }

  /** The historical means stored on a sow (a JSON object whose members may be missing). */
  datatype Medios = Medios(nacidosVivos: Option<real>, destetados: Option<real>, viabilidad: Option<real>)

  /** A row of the sows table. Nullable columns are `Option`s. */
  datatype CerdaRow = CerdaRow(
    id: Id,
    codigo: string,
    nombre: Option<string>,
    estado: Option<EstadoCerda>,
    paridad: Option<int>,
    origen: Option<string>,
    nave: Option<string>,
    medios: Option<Medios>,
    activa: Option<bool>,
    updatedAt: Option<Instant>)

  /** The state the screens read from a row: `cerda.estado || 'en_servicio'`. */
  function EstadoOr(c: CerdaRow): EstadoCerda {
    c.estado.GetOr(EnServicio)
  }

  /** The payload of an event, one shape per kind the forms record. */
  datatype Datos =
    | CubricionDatos(verracoId: Id, verracoCodigo: Option<string>, verracoNombre: Option<string>)
    | PartoDatos(nacidosVivos: int, nacidosMuertos: int, momificados: int, total: int)
      /** `pesoMedioKg` holds the weight field's text; parsing it as a float is not modelled. */
    | DesteteDatos(lechonesDestetados: int, pesoMedioKg: Option<string>)
      /** The payload of an event recorded elsewhere; its contents are not modelled. */
    | OtrosDatos

  /** A row of the events table. */
  datatype Evento = Evento(
    id: Id,
    cerdaId: Id,
    usuarioId: Option<Id>,
    tipo: TipoEvento,
    fecha: Day,
    datos: Datos,
    notas: Option<string>)

  /** A row of the incidents table. */
  datatype Incidencia = Incidencia(
    id: Id,
    cerdaId: Id,
    usuarioId: Id,
    fechaHora: Instant,
    texto: string,
    resuelta: bool)

  /** A row of the boars table. */
  datatype Verraco = Verraco(id: Id, codigo: string, nombre: Option<string>, raza: Option<string>, activo: Option<bool>)

  /** A row of the profiles table. */
  datatype Profile = Profile(id: Id, email: Option<string>, nombre: Option<string>, naveAsignada: Option<string>)

  /** A row of the user_roles table. */
  datatype UserRole = UserRole(id: Id, userId: Id, role: AppRole)
}
