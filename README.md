# cerdas-manager-pro: a verified model of the sow management core

cerdas-manager-pro is a web application for a pig farm. It keeps a register of
sows (*cerdas*), records their lifecycle events (service, farrowing, weaning),
schedules the expected farrowings and ultrasound checks, logs incidents, keeps
the list of boars (*verracos*) and administers the users' roles and barns.

This project models the logic of that core in Dafny and proves its properties:

- **Domain vocabulary** (`database.dfy`). The seven sow states, the six event
  types, the two roles, their stored keys, labels and colours, and the row shapes.
- **The store** (`persistence.dfy`). The remote database becomes a value,
  `Tables`, with one pure function per write (`WithEvento`, `WithEstado`, …),
  and a class, `Store`, whose methods perform those writes in place. Every write
  takes a `fail` flag that decides whether the remote call failed.
- **Forms** (one file each). Each form has a pure `Submit` on `Tables`, stating
  in guard order which outcome a submit has and what it leaves in the tables. It
  also has a class holding the form's fields, whose `HandleSubmit` method makes
  the store calls in the order the handler makes them. That method is proved to
  end in exactly the state `Submit` describes.
- **Pure computations**:
  - the event schedule for a chosen day (`consulta_eventos.dfy`);
  - the incident partition (`incidencias.dfy`);
  - the user/role join (`gestion_usuarios.dfy`);
  - text normalisation (`text.dfy`): JavaScript's `trim`, `|| null`,
    `slice(0, n)` and `parseInt(...) || 0`.
- **Dashboard** (`dashboard.dfy`). The aggregation loop is a method with loop
  invariants, proved against prefix-recursive specification functions.
- **Lifecycle** (`lifecycle.dfy`). The forms seen together: how parity tracks
  the recorded farrowings, which tab a completed event moves a sow into, and the
  sow page's missing parity (see Findings).

Dates are integer day numbers (`Day`) and moments are integer milliseconds
(`Instant`). "Today" and "now" are parameters. Identifiers are natural numbers
handed out by the store's `nextId` counter.

Where the design documentation and the code disagree, the model follows the
code:
- Weaning requires no prior farrowing.
- No screen writes the sows' historical means (`medios_historicos`); a
  weaning-average rule exists only in the documentation.
- The event editor checks the required date field before it checks whether it
  has an event at all, because the browser will not submit an empty required
  field.

## Model

| member | source | states |
|---|---|---|
| Database.AllEstados | src/types/database.ts:3 | There are exactly seven sow states, each listed once, and `EstadoIndex` finds each one. |
| Database.AllTiposEvento | src/types/database.ts:4 | There are exactly six event types, each listed once. |
| Database.AllRoles | src/types/database.ts:5 | The roles are exactly admin and tecnico. |
| Database.EstadoFromKey | src/types/database.ts:3 | Reading a stored spelling yields the state with that key, and yields nothing exactly when no state has that key. |
| Database.EstadoKeyRoundTrip | src/types/database.ts:3 | Every state's key reads back as that state. |
| Database.TipoFromKey | src/types/database.ts:4 | Event-type spellings read back, and nothing outside the six is an event type. |
| Database.RoleFromKey | src/types/database.ts:5 | Role spellings read back, and nothing else is a role. |
| Database.EstadoFromLabel | src/types/database.ts:75-83 | Reading a label back yields a state with that label, and yields nothing exactly when no state has it. |
| Database.EstadoLabelRoundTrip | src/types/database.ts:75-83 | Every state's label reads back as that state. |
| Database.EstadoFromColor | src/types/database.ts:85-93 | Reading a colour back yields a state of that colour, and yields nothing exactly when no state has it. |
| Database.TipoFromLabel | src/types/database.ts:95-102 | Reading an event-type label back yields a type with that label, and yields nothing exactly when no type has it. |
| Text.Trim | src/components/modals/EditarCerdaModal.tsx:63 | `trim` leaves nothing exactly when the text is blank. |
| Text.TrimStartShape | src/components/modals/PartoModal.tsx:148 | What `parseInt` skips is leading whitespace only: the rest is a suffix of the text that starts with a non-blank. |
| Text.TrimSlice | src/components/modals/EditarCerdaModal.tsx:63 | The trimmed text is a slice of the input with only whitespace cut from both ends; when it is not empty it starts and ends with a non-blank. |
| Text.TrimIdempotent | src/pages/NuevaCerda.tsx:25 | Trimming a trimmed text changes nothing. |
| Text.OrNull | src/components/modals/CubricionModal.tsx:90 | `s.trim() \|\| null` is null exactly for a blank text, and otherwise the non-empty trimmed text. |
| Text.OrNullOfNormalText | src/components/modals/EditarCerdaModal.tsx:46-81 | Showing a normalised column as text, then normalising it again, gives the column back. |
| Text.Cap | src/components/modals/CubricionModal.tsx:183 | `slice(0, n)` is a prefix of at most n characters: the whole text when it fits, and exactly n characters otherwise. |
| Text.ParseIntOrZero | src/components/modals/PartoModal.tsx:148 | `parseInt(s) \|\| 0` is negative only after a leading '-', and is non-zero only when the text holds a digit. |
| Text.NonNumericReadsAsZero | src/components/modals/PartoModal.tsx:148 | Text without any digit, for instance an empty field, reads as 0. |
| Text.NatToString | src/pages/ConsultaEventos.tsx:215 | A printed number is a non-empty string of digits. |
| Text.ParseIntRoundTrip | src/pages/ConsultaEventos.tsx:215 | Parsing what a template string prints for an integer gives the integer back. |
| Text.IntToStringInjective | src/pages/ConsultaEventos.tsx:214-216 | Different integers print differently. |
| Seqs.LengthOrZero | src/hooks/useDashboardStats.ts:65-66 | `data?.length \|\| 0` is the length of `data \|\| []`: the list's length, or 0 when the read failed. |
| Seqs.Filter | src/pages/Incidencias.tsx:14 | `filter` keeps exactly the elements passing the test, and no more of them than were given. |
| Seqs.FilterIsSubsequence | src/pages/ConsultaEventos.tsx:86-90 | A filtered list is an order-preserving subsequence of its input. |
| Seqs.FilterPartition | src/pages/Incidencias.tsx:14-15 | Filtering by a test and by its negation splits the input: the two multisets add up to the input's, and so do the lengths. |
| Persistence.Store.InsertEvento | src/components/modals/CubricionModal.tsx:78-93 | An insert appends the event under a fresh id; a failed insert leaves every table as it was. |
| Persistence.Store.UpdateEstado | src/components/modals/CubricionModal.tsx:96-101 | A state update writes that sow's state and nothing else; a failed one writes nothing. |
| Persistence.Store.UpdateEstadoParidad | src/components/modals/PartoModal.tsx:76-84 | This update writes exactly the sow's state and parity. |
| Persistence.Store.UpdateCerda | src/components/modals/EditarCerdaModal.tsx:71-84 | This update writes the seven edited columns of one sow. It fails when the store fails or when the code belongs to another sow. |
| Persistence.Store.InsertCerda | src/hooks/useCerdas.ts:65-71 | A new sow is inserted at the column defaults, unless the store fails or the code is taken; a taken code is reported as a duplicate. |
| Persistence.Store.UpdateEvento | src/components/modals/EditarEventoModal.tsx:54-62 | Only the date and notes of the events with that id change. |
| Persistence.Store.InsertIncidencia | src/components/modals/IncidenciaModal.tsx:49-58 | An unresolved incident is appended under a fresh id. |
| Persistence.Store.UpdateResuelta | src/hooks/useIncidencias.ts:56-62 | Only the resolved flag of the incidents with that id changes. |
| Persistence.Store.InsertVerraco | src/pages/GestionVerracos.tsx:53-55 | The form is inserted as a new boar under a fresh id. |
| Persistence.Store.UpdateVerraco | src/pages/GestionVerracos.tsx:69-71 | The boar with that id takes the form's four fields. |
| Persistence.Store.UpdateVerracoActivo | src/pages/GestionVerracos.tsx:134-136 | Only the active flag of that boar changes. |
| Persistence.Store.DeleteVerraco | src/pages/GestionVerracos.tsx:85-87 | The boar's row is removed and every other boar stays. |
| Persistence.Store.UpdateNave | src/pages/GestionUsuarios.tsx:86-92 | Only the barn of the profiles with that id changes. |
| Persistence.Store.UpdateRoles | src/pages/GestionUsuarios.tsx:63-67 | Every role row of that user takes the new role. |
| Persistence.Store.InsertRole | src/pages/GestionUsuarios.tsx:69-72 | A role row for the user is appended under a fresh id. |
| CubricionModal.FindVerraco | src/components/modals/CubricionModal.tsx:72 | `find` yields the first boar with the id, and yields nothing exactly when no boar has it. |
| CubricionModal.BoarDatos | src/components/modals/CubricionModal.tsx:85-89 | The payload carries the chosen boar's id. Its code and name are those of the first loaded boar with that id, and are absent when the list lacks it. |
| CubricionModal.Submit | src/components/modals/CubricionModal.tsx:59-101 | With no boar, then with no user, nothing is written. A failed insert writes nothing. Otherwise one `cubricion` event dated today is appended, carrying the boar and the trimmed-or-null notes. Only if the update then works does the sow become `cubierta`; no other column or sow changes. |
| CubricionModal.StoredNotasFit | src/components/modals/CubricionModal.tsx:183 | Notes the field accepted fit in 300 characters once stored. |
| CubricionModal.Form.constructor | src/components/modals/CubricionModal.tsx:40-41 | The form starts with no boar and no notes. |
| CubricionModal.Form.SelectVerraco | src/components/modals/CubricionModal.tsx:156 | Choosing a boar selects it. |
| CubricionModal.Form.EditNotas | src/components/modals/CubricionModal.tsx:183 | Typed notes are capped at 300 characters. |
| CubricionModal.Form.HandleOpenChange | src/components/modals/CubricionModal.tsx:116-122 | Closing the dialog clears the boar and the notes; opening it changes nothing. |
| CubricionModal.Form.Cancel | src/components/modals/CubricionModal.tsx:193 | Cancel closes the dialog and keeps what was typed. |
| CubricionModal.Form.HandleSubmit | src/components/modals/CubricionModal.tsx:59-114 | The store ends as `Submit` says and the outcome is the same. On success the form is cleared and closed; otherwise it is unchanged. |
| PartoModal.Submit | src/components/modals/PartoModal.tsx:40-84 | With no user, or with a negative count, nothing is written. A failed insert writes nothing. Otherwise a `parto` event is appended whose total is born alive + stillborn + mummified. Only if the update works does the sow become `parto` with parity `paridad + 1` (null when no parity was passed). |
| PartoModal.Form.constructor | src/components/modals/PartoModal.tsx:33-36 | The counts start at 0 and the notes empty. |
| PartoModal.Form.EditNacidosVivos | src/components/modals/PartoModal.tsx:148 | The field holds `parseInt(text) \|\| 0`. |
| PartoModal.Form.EditNacidosMuertos | src/components/modals/PartoModal.tsx:159 | The field holds `parseInt(text) \|\| 0`. |
| PartoModal.Form.EditMomificados | src/components/modals/PartoModal.tsx:170 | The field holds `parseInt(text) \|\| 0`. |
| PartoModal.Form.EditNotas | src/components/modals/PartoModal.tsx:188 | Typed notes are capped at 500 characters. |
| PartoModal.Form.ResetForm | src/components/modals/PartoModal.tsx:98-103 | `resetForm` sets the three counts to 0 and the notes to empty. |
| PartoModal.Form.HandleOpenChange | src/components/modals/PartoModal.tsx:105-110 | Closing resets the form; opening changes nothing. |
| PartoModal.Form.Cancel | src/components/modals/PartoModal.tsx:198 | Cancel closes the dialog and keeps the values. |
| PartoModal.Form.HandleSubmit | src/components/modals/PartoModal.tsx:40-96 | The store ends as `Submit` says. On success the form is reset and closed; otherwise it is unchanged. |
| DesteteModal.PesoMedio | src/components/modals/DesteteModal.tsx:63 | The weight is absent exactly when its field is empty. |
| DesteteModal.Submit | src/components/modals/DesteteModal.tsx:37-76 | With no user, or a negative count, nothing is written. A failed insert writes nothing. Otherwise a `destete` event with the weaned count and the weight is appended. Only if the update works does the sow become `destete`. |
| DesteteModal.AcceptedFromAnyState | src/components/modals/DesteteModal.tsx:37-76 | From every state a complete weaning leaves the sow `destete`, with parity and historical means unchanged. |
| DesteteModal.Form.constructor | src/components/modals/DesteteModal.tsx:31-33 | The form starts with count 0, an empty weight and empty notes. |
| DesteteModal.Form.EditLechones | src/components/modals/DesteteModal.tsx:138 | The field holds `parseInt(text) \|\| 0`. |
| DesteteModal.Form.EditPesoMedio | src/components/modals/DesteteModal.tsx:150 | The weight field keeps the typed text. |
| DesteteModal.Form.EditNotas | src/components/modals/DesteteModal.tsx:162 | Typed notes are capped at 500 characters. |
| DesteteModal.Form.ResetForm | src/components/modals/DesteteModal.tsx:90-94 | `resetForm` restores count 0, an empty weight and empty notes. |
| DesteteModal.Form.HandleOpenChange | src/components/modals/DesteteModal.tsx:96-101 | Closing resets the form; opening changes nothing. |
| DesteteModal.Form.Cancel | src/components/modals/DesteteModal.tsx:172 | Cancel closes the dialog and keeps the values. |
| DesteteModal.Form.HandleSubmit | src/components/modals/DesteteModal.tsx:37-88 | The store ends as `Submit` says. On success the form is reset and closed; otherwise it is unchanged. |
| EditarCerdaModal.OptionsAgreeWithLabels | src/components/modals/EditarCerdaModal.tsx:24-32 | The editor's own label table has a label for every state, the same one the other screens use, and it names only states. |
| EditarCerdaModal.SeedForm | src/components/modals/EditarCerdaModal.tsx:46-56 | Seeding copies the row, with '' for missing text, parity 0, `en_servicio` and active as the defaults. |
| EditarCerdaModal.Submit | src/components/modals/EditarCerdaModal.tsx:60-84 | A blank code is refused with no write. Otherwise that sow gets the trimmed code, the trimmed-or-null texts, and the chosen parity, state and flag; its historical means are kept. The update fails, writing nothing, when the store fails or another sow has the code. |
| EditarCerdaModal.EditKeepsCodigosUnique | src/components/modals/EditarCerdaModal.tsx:71-82 | An edit never gives two sows the same code. |
| EditarCerdaModal.AnyTransitionAccepted | src/components/modals/EditarCerdaModal.tsx:73-82 | The override has no transition guard: any chosen state is written from any state. |
| EditarCerdaModal.SeedThenSaveChangesNothing | src/components/modals/EditarCerdaModal.tsx:46-81 | Opening a normalised sow and saving it unchanged leaves the tables as they were. |
| EditarCerdaModal.Modal.constructor | src/components/modals/EditarCerdaModal.tsx:36-44 | The editor starts with the empty form. |
| EditarCerdaModal.Modal.Seed | src/components/modals/EditarCerdaModal.tsx:46-58 | While open, the effect seeds the form from the sow; while closed, it leaves the form. |
| EditarCerdaModal.Modal.EditCodigo | src/components/modals/EditarCerdaModal.tsx:114 | The code field takes the typed text. |
| EditarCerdaModal.Modal.EditNombre | src/components/modals/EditarCerdaModal.tsx:124 | The name field takes the typed text. |
| EditarCerdaModal.Modal.EditNave | src/components/modals/EditarCerdaModal.tsx:136 | The barn field takes the typed text. |
| EditarCerdaModal.Modal.EditOrigen | src/components/modals/EditarCerdaModal.tsx:146 | The origin field takes the typed text. |
| EditarCerdaModal.Modal.EditParidad | src/components/modals/EditarCerdaModal.tsx:160 | The parity field holds `parseInt(text) \|\| 0`. |
| EditarCerdaModal.Modal.SelectEstado | src/components/modals/EditarCerdaModal.tsx:166 | Any state may be chosen. |
| EditarCerdaModal.Modal.SetActiva | src/components/modals/EditarCerdaModal.tsx:186 | The switch sets the active flag. |
| EditarCerdaModal.Modal.HandleOpenChange | src/components/modals/EditarCerdaModal.tsx:98 | Dismissing closes the dialog and keeps the form. |
| EditarCerdaModal.Modal.HandleSubmit | src/components/modals/EditarCerdaModal.tsx:60-95 | The store ends as `Submit` says, and only a written update closes the dialog. |
| EditarEventoModal.TipoShown | src/components/modals/EditarEventoModal.tsx:97 | The header shows a known type's label, and any other key as itself. |
| EditarEventoModal.Submit | src/components/modals/EditarEventoModal.tsx:46-62 | With an empty date, or no event, nothing is written. Otherwise only the date and the trimmed-or-null notes of that event change; type, payload and sow stay. |
| EditarEventoModal.SeedNotas | src/components/modals/EditarEventoModal.tsx:42 | Null notes are shown as ''. |
| EditarEventoModal.SeedThenSaveChangesNothing | src/components/modals/EditarEventoModal.tsx:39-60 | Opening an event and saving it unchanged leaves the events table as it was. |
| EditarEventoModal.Modal.constructor | src/components/modals/EditarEventoModal.tsx:35-36 | The fields start empty. |
| EditarEventoModal.Modal.Seed | src/components/modals/EditarEventoModal.tsx:39-44 | A given event fills the date and notes; with none, the fields stay. |
| EditarEventoModal.Modal.EditFecha | src/components/modals/EditarEventoModal.tsx:111 | The date field takes the chosen date. |
| EditarEventoModal.Modal.EditNotas | src/components/modals/EditarEventoModal.tsx:122 | Typed notes are capped at 500 characters. |
| EditarEventoModal.Modal.HandleOpenChange | src/components/modals/EditarEventoModal.tsx:75-79 | Dismissing closes the dialog and keeps the fields. |
| EditarEventoModal.Modal.HandleSubmit | src/components/modals/EditarEventoModal.tsx:46-73 | The store ends as `Submit` says, and only a written update closes the dialog. |
| NuevaCerda.Submit | src/pages/NuevaCerda.tsx:17-31 | A blank code is refused. A failed insert, or a code already in use, writes nothing. Otherwise one sow is added under a fresh id with the trimmed code and the trimmed-or-absent texts; no other sow changes. |
| NuevaCerda.RegisteredSow | src/pages/NuevaCerda.tsx:24-29 | The new sow has a fresh id and a non-empty, unpadded code. It is in service with parity 0, active, and has no historical means. Its texts are the trimmed-or-null form fields. |
| NuevaCerda.KeepsCodigosUnique | src/hooks/useCerdas.ts:78-84 | Registration never gives two sows the same code. |
| NuevaCerda.Toast | src/hooks/useCerdas.ts:74-85 | A blank code shows the page's 'El código es obligatorio'. A written insert shows the success message, a code clash the duplicate message and a failed insert the generic error. |
| NuevaCerda.ToastsDistinct | src/hooks/useCerdas.ts:74-85 | Each of the four toasts names its outcome. |
| NuevaCerda.EverySubmitToasts | src/pages/NuevaCerda.tsx:19-22 | Every submit of the page ends with a toast, and it is the page's own message exactly when the code is blank. |
| NuevaCerda.Page.constructor | src/pages/NuevaCerda.tsx:15 | The form starts empty. |
| NuevaCerda.Page.EditCodigo | src/pages/NuevaCerda.tsx:50 | The code field takes the typed text. |
| NuevaCerda.Page.EditNombre | src/pages/NuevaCerda.tsx:54 | The name field takes the typed text. |
| NuevaCerda.Page.EditOrigen | src/pages/NuevaCerda.tsx:58 | The origin field takes the typed text. |
| NuevaCerda.Page.EditNave | src/pages/NuevaCerda.tsx:62 | The barn field takes the typed text. |
| NuevaCerda.Page.HandleSubmit | src/pages/NuevaCerda.tsx:17-32 | The store ends as `Submit` says. The page moves to the list only when the sow was created; a failure is swallowed. |
| IncidenciaModal.Submit | src/components/modals/IncidenciaModal.tsx:33-58 | A blank text is refused, then a missing user. A failed insert writes nothing. Otherwise one unresolved incident is appended, with the trimmed text, the user and the moment of the submit. |
| IncidenciaModal.StoredTextoIsTrimmed | src/components/modals/IncidenciaModal.tsx:54 | A stored text has no blanks at either end and fits 400 characters. |
| IncidenciaModal.EnabledButtonPassesBlankGuard | src/components/modals/IncidenciaModal.tsx:118 | The submit button is enabled exactly when the handler's blank-text guard lets the submit through. |
| IncidenciaModal.Form.constructor | src/components/modals/IncidenciaModal.tsx:29 | The text starts empty. |
| IncidenciaModal.Form.EditTexto | src/components/modals/IncidenciaModal.tsx:105 | Typed text is capped at 400 characters. |
| IncidenciaModal.Form.HandleOpenChange | src/components/modals/IncidenciaModal.tsx:73 | Dismissing closes the dialog and keeps the text. |
| IncidenciaModal.Form.HandleSubmit | src/components/modals/IncidenciaModal.tsx:33-70 | The store ends as `Submit` says. On success the text is cleared and the dialog closed; otherwise nothing changes. |
| Incidencias.Activas | src/pages/Incidencias.tsx:14 | The active list holds exactly the loaded incidents that are not resolved. |
| Incidencias.Resueltas | src/pages/Incidencias.tsx:15 | The resolved list holds exactly the loaded incidents that are resolved. |
| Incidencias.Partition | src/pages/Incidencias.tsx:14-15 | The two lists split the loaded rows: no row is in both, and the multisets and lengths add up. Each list keeps the loaded order. |
| Incidencias.ActiveCount | src/pages/Incidencias.tsx:22 | The header count is the number of loaded incidents minus the resolved ones. |
| Incidencias.NoActiveWhenAllResolved | src/pages/Incidencias.tsx:40 | The count is 0 exactly when every loaded incident is resolved. |
| Incidencias.ShownResueltas | src/pages/Incidencias.tsx:73 | The shown resolved incidents are the first min(10, n) of them. |
| Incidencias.Resolve | src/pages/Incidencias.tsx:55 | Resolving sets the flag of the incidents with that id, and of nothing else. |
| Incidencias.ResolveLeavesActive | src/pages/Incidencias.tsx:14 | After a resolve, the active list is the old one without that incident, in the same order. |
| Incidencias.ResolvedLeavesPage | src/pages/Incidencias.tsx:55 | After a resolve the page no longer lists that incident as active. |
| ConsultaEventos.ServiceEvents | src/pages/ConsultaEventos.tsx:41-53 | The query yields only `cubricion` events of existing active sows, each joined with its sow, and yields every such event. |
| ConsultaEventos.Abs | src/pages/ConsultaEventos.tsx:89 | `Math.abs`: the value or its negation, never below 0. |
| ConsultaEventos.WithExpected | src/pages/ConsultaEventos.tsx:91-94 | The `map` keeps each row and adds the date `offset` days after its service. |
| ConsultaEventos.PartosEsperados | src/pages/ConsultaEventos.tsx:86-94 | A service is listed exactly when service date + 114 is within 3 days of the chosen day, whatever the sow's state. Each row carries that date, in loaded order. |
| ConsultaEventos.EcografiasDebidas | src/pages/ConsultaEventos.tsx:97-108 | A service is listed exactly when its sow is `cubierta` and service date + 21 is within 2 days of the chosen day, in loaded order. |
| ConsultaEventos.FarrowingServiceRange | src/pages/ConsultaEventos.tsx:86-90 | A farrowing is due exactly for the services 111 to 117 days before the chosen day. |
| ConsultaEventos.CheckServiceRange | src/pages/ConsultaEventos.tsx:97-104 | An ultrasound is due exactly for the `cubierta` services 19 to 23 days before the chosen day. |
| ConsultaEventos.NeverBothDue | src/pages/ConsultaEventos.tsx:86-108 | No service is on both lists for the same day. |
| ConsultaEventos.FarrowingIgnoresState | src/pages/ConsultaEventos.tsx:86-90 | The farrowing test never looks at the sow's state. |
| ConsultaEventos.BothServicesListed | src/pages/ConsultaEventos.tsx:86-94 | Two services of the same sow that both fall in the window are both listed. |
| ConsultaEventos.RelativeLabel | src/pages/ConsultaEventos.tsx:212-216 | The label reads "Hoy" for 0, "En n días" ahead and "Hace n días" behind. |
| ConsultaEventos.RelativeLabelInjective | src/pages/ConsultaEventos.tsx:212-216 | Different differences give different labels, so the label determines the difference. |
| ConsultaEventos.ActiveIn | src/pages/ConsultaEventos.tsx:56-81 | A tab holds exactly the active sows in its state. |
| ConsultaEventos.TabsDisjoint | src/pages/ConsultaEventos.tsx:165-171 | No sow is counted in both the "A Cubrir" and the "Destete" tab. |
| Dashboard.CountIn | src/hooks/useDashboardStats.ts:41-42 | A per-state count never exceeds the number of sows. |
| Dashboard.ConMedios | src/hooks/useDashboardStats.ts:44-52 | The number of contributing sows never exceeds the number of sows. |
| Dashboard.SecasProlongadas | src/hooks/useDashboardStats.ts:54-58 | The long-dry count never exceeds the number of sows. |
| Dashboard.ComputeStats | src/hooks/useDashboardStats.ts:18-71 | The `forEach` loop and the returned object equal the specification `Stats` of the three reads. |
| Dashboard.PorEstadoCounts | src/hooks/useDashboardStats.ts:41-42 | The per-state map has an entry exactly for the states some sow is in, each holding that state's count; a missing state counts as `en_servicio`. |
| Dashboard.CountsSumToTotal | src/hooks/useDashboardStats.ts:41-42 | The seven per-state counts add up to the number of sows. |
| Dashboard.SecasWithinSeca | src/hooks/useDashboardStats.ts:54-58 | The long-dry sows are among the `seca` ones. |
| Dashboard.MissingStateCountsInService | src/hooks/useDashboardStats.ts:41 | A sow without a state adds one to `en_servicio` and nothing to any other state. |
| Dashboard.VivosPositive | src/hooks/useDashboardStats.ts:44-51 | The born-alive sum is never negative, and is above 0 exactly when some sow contributes. |
| Dashboard.StatsProperties | src/hooks/useDashboardStats.ts:62-71 | The returned figures satisfy: total = number of active sows; every state count in 1..total; contributing sows ≤ total; long-dry ≤ the `seca` count; all means 0 when nobody contributes, and the born-alive mean positive otherwise; the incident counts are the lengths of the lists read, 0 for a failed read. |
| GestionUsuarios.FirstRole | src/pages/GestionUsuarios.tsx:47 | A row's role is that of the user's first role row, and is null exactly when the user has none. |
| GestionUsuarios.Join | src/pages/GestionUsuarios.tsx:42-48 | There is one row per profile, in order, with the same id, email, name and barn. |
| GestionUsuarios.LoadUsers | src/pages/GestionUsuarios.tsx:29-51 | The query fails exactly when either read fails; otherwise it has one row per profile. |
| GestionUsuarios.RoleRowCount | src/pages/GestionUsuarios.tsx:56-60 | The count of a user's role rows is 0 exactly when the user has none. |
| GestionUsuarios.UpsertRole | src/pages/GestionUsuarios.tsx:54-74 | When the lookup found a row, the user's rows are updated; otherwise a row is appended. A failed write changes nothing, and no other table is touched. |
| GestionUsuarios.FirstRoleAfterUpdate | src/pages/GestionUsuarios.tsx:63-66 | After the update the user shows the new role, provided they had a row; every other user is unchanged. |
| GestionUsuarios.FirstRoleAfterAppend | src/pages/GestionUsuarios.tsx:69-71 | An appended row shows only for a user who had no row. |
| GestionUsuarios.UpsertShowsNewRole | src/pages/GestionUsuarios.tsx:54-74 | Other users keep their role. The user shows the new role when the lookup found their row, or when they had none. |
| GestionUsuarios.UpsertBehindExistingRow | src/pages/GestionUsuarios.tsx:56-60 | When a user who has a row gets nothing from the lookup, the new row lands behind the old one and the old role stays shown. |
| GestionUsuarios.NaveSelection | src/pages/GestionUsuarios.tsx:181-184 | Choosing 'none' stores null; any other option is stored as written. |
| GestionUsuarios.NaveShown | src/pages/GestionUsuarios.tsx:179 | The selector shows the stored barn, and 'none' when it is missing or empty. |
| GestionUsuarios.NaveRoundTrip | src/pages/GestionUsuarios.tsx:179-194 | Each offered option reads back as itself after it is stored. |
| GestionUsuarios.UpdateNave | src/pages/GestionUsuarios.tsx:86-92 | Only that profile's barn changes. |
| GestionUsuarios.DefaultRole | src/pages/GestionUsuarios.tsx:151 | The role selector defaults to tecnico. |
| GestionUsuarios.RoleShown | src/pages/GestionUsuarios.tsx:173 | The badge shows the role's key, or 'Sin rol', which is no role. |
| GestionUsuarios.Page.constructor | src/pages/GestionUsuarios.tsx:25 | No role editor is open at first. |
| GestionUsuarios.Page.ToggleEditing | src/pages/GestionUsuarios.tsx:202-204 | The button opens that row's editor, or closes it when it is the open one. |
| GestionUsuarios.Page.ChangeRole | src/pages/GestionUsuarios.tsx:54-79 | The store ends as `UpsertRole` says, and the editor closes on success. |
| GestionUsuarios.Page.ChangeNave | src/pages/GestionUsuarios.tsx:180-185 | The store ends as `UpdateNave` says. |
| GestionVerracos.SeedForm | src/pages/GestionVerracos.tsx:99-107 | Opening a boar seeds its values, with '' for a missing name or breed and active when the flag is missing. |
| GestionVerracos.Submit | src/pages/GestionVerracos.tsx:121-132 | A blank code is refused. Otherwise the boar being edited is updated, or, when none is, a new one is created. A failed write changes nothing. |
| GestionVerracos.CodigoStoredAsTyped | src/pages/GestionVerracos.tsx:121-131 | The code is checked trimmed but stored as typed. |
| GestionVerracos.SeedThenSaveChangesNothing | src/pages/GestionVerracos.tsx:99-131 | Opening a boar and saving it unchanged leaves the tables as they were. |
| GestionVerracos.Flipped | src/pages/GestionVerracos.tsx:135 | `!verraco.activo` negates the flag, and a missing flag becomes active. |
| GestionVerracos.Toggle | src/pages/GestionVerracos.tsx:134-136 | A toggle writes only `activo := !activo` of that boar. |
| GestionVerracos.ToggleTwiceRestores | src/pages/GestionVerracos.tsx:134-136 | Two toggles restore the boar's row. |
| GestionVerracos.Delete | src/pages/GestionVerracos.tsx:284-287 | Without confirmation nothing happens; otherwise exactly that boar is removed. |
| GestionVerracos.Editor.constructor | src/pages/GestionVerracos.tsx:36-38 | The editor starts closed, editing nothing, with `emptyForm`. |
| GestionVerracos.Editor.HandleOpen | src/pages/GestionVerracos.tsx:99-113 | Opening edits the given boar with its values, or creates with `emptyForm`, and opens the dialog. |
| GestionVerracos.Editor.HandleClose | src/pages/GestionVerracos.tsx:115-119 | Closing resets the open flag, the boar and the form. |
| GestionVerracos.Editor.OnOpenChange | src/pages/GestionVerracos.tsx:150 | The dialog's own open-change sets only the open flag. |
| GestionVerracos.Editor.EditCodigo | src/pages/GestionVerracos.tsx:176 | The code field takes the typed text. |
| GestionVerracos.Editor.EditNombre | src/pages/GestionVerracos.tsx:186 | The name field takes the typed text. |
| GestionVerracos.Editor.EditRaza | src/pages/GestionVerracos.tsx:196 | The breed field takes the typed text. |
| GestionVerracos.Editor.SetActivo | src/pages/GestionVerracos.tsx:206 | The switch sets the active flag. |
| GestionVerracos.Editor.HandleSubmit | src/pages/GestionVerracos.tsx:52-76 | The store ends as `Submit` says; a written create or update closes the editor, and otherwise nothing changes. |
| GestionVerracos.Editor.ToggleActivo | src/pages/GestionVerracos.tsx:68-76 | The store ends as `Toggle` says. Because the toggle goes through the same update mutation, a written one also closes the editor. |
| GestionVerracos.Editor.DeleteClicked | src/pages/GestionVerracos.tsx:84-97 | The store ends as `Delete` says, and the editor is not touched. |
| Lifecycle.RegistrationKeepsParity | src/pages/NuevaCerda.tsx:24-29 | A sow registered at parity 0 keeps "parity = recorded farrowings". |
| Lifecycle.ServiceKeepsParity | src/components/modals/CubricionModal.tsx:78-101 | A service, whatever its outcome, keeps "parity = recorded farrowings". |
| Lifecycle.WeaningKeepsParity | src/components/modals/DesteteModal.tsx:54-76 | A weaning, whatever its outcome, keeps "parity = recorded farrowings". |
| Lifecycle.FarrowingKeepsParity | src/components/modals/PartoModal.tsx:57-84 | A farrowing recorded with the sow's own parity keeps "parity = recorded farrowings". |
| Lifecycle.FailedUpdateBreaksParity | src/components/modals/PartoModal.tsx:73-84 | When the sow update fails after the event insert, the event stays and the parity falls one behind. |
| Lifecycle.FichaParidadAsWritten | src/pages/FichaCerda.tsx:377-383 | The sow page passes no parity to the farrowing form. |
| Lifecycle.FichaParidad | src/pages/FichaCerda.tsx:377-383 | The intended prop is the sow's parity, with a null parity read as 0. |
| Lifecycle.FichaFarrowingErasesParidad | src/components/modals/PartoModal.tsx:78-81 | As written, a farrowing from the sow page nulls the sow's parity. |
| Lifecycle.FichaFarrowingCounterexample | src/pages/FichaCerda.tsx:377-383 | A parity-2 sow ends with null parity as written, and with 3 as intended. |
| Lifecycle.FichaFarrowingIncrementsParidad | src/components/modals/PartoModal.tsx:76-82 | With the parity passed, a farrowing raises the parity by one, sets `parto`, and keeps the parity bookkeeping. |
| Lifecycle.ServiceLeavesQueue | src/pages/ConsultaEventos.tsx:56-67 | A completed service takes the sow out of the "A Cubrir" tab, and moves no other sow. |
| Lifecycle.FarrowingJoinsWeaningTab | src/pages/ConsultaEventos.tsx:69-81 | A completed farrowing puts an active sow in the "Destete" tab. |
| Lifecycle.WeaningLeavesWeaningTab | src/pages/ConsultaEventos.tsx:69-81 | A completed weaning takes the sow out of the "Destete" tab. |

## Left out

- The remote store is an in-memory value. The Supabase client, query caching and invalidation, toasts other than the registration toast, `logError`, and the `loading` flags (false before and after every sequential submit) are not modelled.
- Weights and means are not modelled as floats:
  - the weaning weight is kept as the text typed, without `parseFloat`;
  - the dashboard means are real divisions, without `toFixed(1)` rounding.
- Calendar arithmetic is not modelled:
  - dates are day numbers and moments are milliseconds, both passed in as parameters;
  - date-fns local-time parsing, daylight saving and `differenceInDays` are out of scope.
- The database-side query builders are left out: the `order`, `ilike` and `gte` filters and the 90-day window of the incident query. Each page takes the loaded list as its input, in stored order.
- The three dashboard reads under `Promise.all` are three independent inputs, not concurrency.
- Asynchronous mutation timing is left out: a mutation and its `onSuccess` run as one step.
- Column defaults and `updated_at` are assumed rather than shown:
  - a new sow is `en_servicio`, parity 0, active, with no means, and a new incident is unresolved;
  - `updated_at` is maintained by the database, so no write in the model touches it.
- The schedule page's `cerdasCubiertas` query is left out. Its data is never used; only its loading flag gates the page's spinner, and loading flags are not modelled.
- The users table's name and email cells, which show a placeholder for a missing value, are rendering only and are left out.
- Rendering-only files are left out:
  - the sow page apart from the parity it passes, the sow list, the dashboard and report pages, the badges and cards, routing guards and sign-in;
  - the settings page, whose values are never stored and which the schedule never reads;
  - the sidebar's link to `/consulta-eventos`, for which the router has no route.
- GestionUsuarios.UpsertRole: it does not promise that the user shows the new role in every case. As written, a user with two role rows, or whose lookup failed, gets a third row behind the old one, so the page keeps showing the old role (`UpsertBehindExistingRow`).
- Dashboard.StatsProperties: the means are stated over reals without the one-decimal rounding.
- Persistence.Store.InsertCerda: the uniqueness of `codigo` comes from the database's constraint, which is not part of the code shown. The store models it as refusing a taken code, and `EditarCerdaModal.Submit` maps that refusal to a failed update.

## Findings

| source | as written | input that shows it | evidently intended | confidence | as-written member | corrected member |
|---|---|---|---|---|---|---|
| src/pages/FichaCerda.tsx:377-383 | The sow page renders the farrowing form without its required `paridad` prop, so the form's update sends `undefined + 1`. That is NaN, which JSON encodes as null, so the sow's parity is erased when the column accepts null. The schema is not part of this model; with a NOT NULL column the update would fail instead, leaving the event recorded and the parity one behind (`Lifecycle.FailedUpdateBreaksParity`). | A sow with parity 2 whose farrowing is recorded from her page ends with parity null. | Pass `paridad={cerda.paridad}`, so that the sow ends with parity 3 and parity keeps counting the recorded farrowings. | not executed | Lifecycle.FichaFarrowingErasesParidad | Lifecycle.FichaFarrowingIncrementsParidad |
