# Survey administration client: a Dafny model of its client-side logic

This project models the logic of the municipal survey administration client that runs in the
browser. The remote API stores the data, computes the statistics and swaps the positions of
questions and answers. The client does the rest, and that is what is modelled here:

- the answer selection a respondent builds while answering a survey, and when that survey
  counts as complete;
- turning a drag-and-drop of a question or answer into a chain of single-step reorder requests;
- the demographic counts, percentages and enumerator list of the reports page;
- the paginator window, filters and expanded answers of the answered-questions page;
- the form checks of the question, survey and neighbourhood forms, and the requests they let
  through;
- the open/close state of the create/edit modals kept by the services;
- the sort, filter and page state of the list pages;
- the point list of a new neighbourhood and the map start-up retry counter;
- the distinct descriptions, filter and counts of the neighbourhoods map page;
- the date guard of the general reports page and the active-survey filter of the public page;
- the query parameters the services build for the report and answer requests.

There is one Dafny module per source file. Three modules are shared:

- `Comun`: `Option`, the JavaScript number that may be missing or `NaN`, and truthiness;
- `Textos`: `trim`, `toLowerCase`, `includes`, `endsWith`, string `<` and number-to-string;
- `Secuencias`: `filter`, `map`, a stable `sort` with a comparator, and de-duplication through
  a `Set` or a `Map`.

The API records are datatypes in `Modelo`. A component or service whose fields its methods
update is a class. Each remote call is a parameter of the method that makes it:

- the user's answer to a confirmation dialog is `confirmado`;
- the reply is `exito`/`respuesta`, which is absent while none has arrived.

The requests sent are recorded in sequence fields (`solicitudes`, `consultas`) or counters, and
so are the router navigations (`salidas`, `redirecciones`). The messages recorded (`avisos`)
are the form-check messages, the `.kml` alert, the neighbourhood-creation alerts and the API
errors of the answered-questions page; the load pages count their failures. The other success
toasts and API-error alerts are listed under "## Left out".

## Model

| member | source | states |
|---|---|---|
| EncuestaPublica.SeleccionInvalida | src/app/pages/public/encuesta/encuesta.component.ts:137-142 | a click with a zero or non-numeric question or answer id leaves the selection map unchanged |
| EncuestaPublica.EncuestaComponente.constructor | src/app/pages/public/encuesta/encuesta.component.ts:37-58 | no survey, no choices, not sending, not completed, loading the survey, default personal data and an empty neighbourhood search |
| EncuestaPublica.SeleccionUnica | src/app/pages/public/encuesta/encuesta.component.ts:160-163 | a single-choice click makes exactly `{r}` the question's choice and leaves every other question's entry as it was |
| EncuestaPublica.SeleccionMultiple | src/app/pages/public/encuesta/encuesta.component.ts:144-159 | a multiple-choice click flips the membership of that answer only, and no other question changes |
| EncuestaPublica.SeleccionConservaSinVacios | src/app/pages/public/encuesta/encuesta.component.ts:146-158 | every click keeps the invariant that no question is mapped to an empty set |
| EncuestaPublica.SeleccionMultipleDosVeces | src/app/pages/public/encuesta/encuesta.component.ts:144-159 | ticking and unticking the same checkbox restores the map exactly |
| EncuestaPublica.SeleccionadaTrasClic | src/app/pages/public/encuesta/encuesta.component.ts:137-169 | `verificarRespuestaSeleccionada` is false for a question with no entry; after a click with valid ids the answer shows as ticked on a single-choice question, and its tick flips on a multiple-choice one |
| EncuestaPublica.EncuestaComponente.SeleccionarRespuesta | src/app/pages/public/encuesta/encuesta.component.ts:137-164 | the in-place `Map`/`Set` updates give the map described by the selection function and keep the class invariant |
| EncuestaPublica.TodasRespondidasSii | src/app/pages/public/encuesta/encuesta.component.ts:171-176 | with distinct question ids and only their keys in the map, all-answered holds iff every loaded question has an entry; without a loaded survey or question list the answers are never complete (`SinPreguntasNoRespondidas`) |
| EncuestaPublica.CardinalIds | src/app/pages/public/encuesta/encuesta.component.ts:171-176 | distinct question ids give as many ids as questions, which is what makes the size comparison meaningful |
| EncuestaPublica.DatosPersonalesCompletosSii | src/app/pages/public/encuesta/encuesta.component.ts:178-183 | the personal data are complete iff the trimmed email or phone is non-empty and a neighbourhood is chosen |
| EncuestaPublica.FormularioCompletoSii | src/app/pages/public/encuesta/encuesta.component.ts:171-187 | the form is complete iff the email or phone has a visible character, a neighbourhood is chosen and all questions are answered; with distinct question ids and only their keys chosen, the last means every loaded question has an entry |
| EncuestaPublica.LimpiarRespuestas | src/app/pages/public/encuesta/encuesta.component.ts:121-133 | a question keeps its own fields; its answer list holds exactly the active answers with a usable id, sorted by `orden` |
| EncuestaPublica.PreguntasParaResponderActivas | src/app/pages/public/encuesta/encuesta.component.ts:111-120 | after the clean-up the questions are the active ones of the input, each cleaned up, and no others |
| EncuestaPublica.PreguntasParaResponderOrdenadas | src/app/pages/public/encuesta/encuesta.component.ts:116-118 | the cleaned-up questions are in non-decreasing `orden` |
| EncuestaPublica.PreguntasParaResponderRespuestas | src/app/pages/public/encuesta/encuesta.component.ts:121-133 | each cleaned-up answer list holds only active answers with a usable id, in non-decreasing `orden` |
| EncuestaPublica.EncuestaComponente.OrdenarPreguntasYRespuestas | src/app/pages/public/encuesta/encuesta.component.ts:111-135 | the in-place filter, sort and per-question loop leave the survey described by the clean-up function |
| EncuestaPublica.LimpiarPregunta | src/app/pages/public/encuesta/encuesta.component.ts:121-132 | the in-place filter and sort of one question's answers leave the question the clean-up function describes |
| EncuestaPublica.EncuestaComponente.ReiniciarEncuesta | src/app/pages/public/encuesta/encuesta.component.ts:252-270 | the selection map is emptied, the survey is no longer completed, the personal data go back to their defaults and the neighbourhood search is reset; with no neighbourhood chosen the form is then incomplete (`ReinicioIncompleto`) |
| EncuestaPublica.FiltroBarrios | src/app/pages/public/encuesta/encuesta.component.ts:301-310 | a blank search shows every neighbourhood; otherwise exactly those whose lower-cased name contains the lower-cased, trimmed text |
| EncuestaPublica.FiltroBarriosSinMayusculas | src/app/pages/public/encuesta/encuesta.component.ts:302 | the search ignores the case of the typed text |
| EncuestaPublica.FiltroBarriosConcat | src/app/pages/public/encuesta/encuesta.component.ts:306-308 | the search keeps the neighbourhoods' relative order |
| EncuestaPublica.FiltroBarriosSii | src/app/pages/public/encuesta/encuesta.component.ts:301-310 | a neighbourhood is found iff the search text occurs at some position of its lower-cased name |
| EncuestaPublica.EncuestaComponente.FiltrarBarrios | src/app/pages/public/encuesta/encuesta.component.ts:301-310 | the shown list becomes the search result for the current text |
| EncuestaPublica.EncuestaComponente.SeleccionarBarrio | src/app/pages/public/encuesta/encuesta.component.ts:315-319 | records the neighbourhood id, shows its name in the search box and closes the list |
| DetallesEncuestas.PreguntasFiltradas | src/app/pages/encuestas/detallesEncuestas/detallesEncuestas.component.ts:79-89 | 'all' gives every question, 'true' only the active ones, any other value only the inactive ones; no survey gives none |
| DetallesEncuestas.CantidadesSuman | src/app/pages/encuestas/detallesEncuestas/detallesEncuestas.component.ts:91-99 | each count is the length of its filtered list, and the active plus inactive counts equal the number of questions |
| DetallesEncuestas.PreguntasOrdenadasCorrecto | src/app/pages/encuestas/detallesEncuestas/detallesEncuestas.component.ts:116-126 | the sorted questions are a permutation of the input's questions with sorted answers, in non-decreasing `orden`; both `orden` comparators are total preorders (`Modelo.OrdenesSonPreordenes`), so the sort is well defined |
| DetallesEncuestas.OrdenarRespuestas | src/app/pages/encuestas/detallesEncuestas/detallesEncuestas.component.ts:120-122 | a question keeps its own fields; its answer list, when loaded, becomes a permutation of itself in non-decreasing `orden` |
| DetallesEncuestas.DetallesEncuestasComponente.constructor | src/app/pages/encuestas/detallesEncuestas/detallesEncuestas.component.ts:33-37 | no survey loaded and the filter on all questions |
| DetallesEncuestas.DetallesEncuestasComponente.OrdenarPreguntas | src/app/pages/encuestas/detallesEncuestas/detallesEncuestas.component.ts:116-126 | the in-place sorts in a loop over the questions leave the survey described by the sorting function |
| DetallesEncuestas.OrdenarRespuestasDe | src/app/pages/encuestas/detallesEncuestas/detallesEncuestas.component.ts:120-123 | the in-place sort of one question's answers leaves the question the sorting function describes |
| DetallesEncuestas.UsuariosDisponibles | src/app/pages/encuestas/detallesEncuestas/detallesEncuestas.component.ts:346-356 | a user is available iff it is active and its id is not among the assigned users' ids |
| DetallesEncuestas.MovimientoLlegaAlDestino | src/app/pages/encuestas/detallesEncuestas/detallesEncuestas.component.ts:418-421 | the direction is 'arriba' iff the target `orden` is below the source `orden` (`DireccionDe`), and that many one-position steps in that direction end exactly at the target position |
| DetallesEncuestas.PrefijoExitoso | src/app/pages/encuestas/detallesEncuestas/detallesEncuestas.component.ts:437-454 | the number of leading successful replies: all of them succeeded, and the next one failed or there is none |
| DetallesEncuestas.PrefijoCompleto | src/app/pages/encuestas/detallesEncuestas/detallesEncuestas.component.ts:437-454 | when the first m replies succeed, the chain gets past step m |
| DetallesEncuestas.EjecutarReordenamiento | src/app/pages/encuestas/detallesEncuestas/detallesEncuestas.component.ts:437-454 | every request names the same element and direction; if all steps succeed there are `stepsTotal` requests and one refetch; if the request of step k (counted from 0) fails, the chain stops after those k+1 requests with no refetch; zero steps means no request and an immediate refetch |
| DetallesEncuestas.Soltar | src/app/pages/encuestas/detallesEncuestas/detallesEncuestas.component.ts:410-435 | a drop onto its own position sends nothing and refetches nothing; any other drop runs the chain with the direction and step count of the two `orden` values |
| DetallesEncuestas.DetallesEncuestasComponente.DropPregunta | src/app/pages/encuestas/detallesEncuestas/detallesEncuestas.component.ts:410-435 | a question drop over the filtered list, with the same guarantees as the chain |
| DetallesEncuestas.DetallesEncuestasComponente.DropRespuesta | src/app/pages/encuestas/detallesEncuestas/detallesEncuestas.component.ts:456-500 | an answer drop within one question, with the same guarantees as the chain; the moved answer's id is sent as it is, even when it is missing or not a number |
| Reportes.EstadisticasDemograficas | src/app/pages/reportes/reportes.component.ts:158-195 | null for a missing or empty participant list; otherwise `totalConDatos` counts the participants with personal data, each of the three count lists adds up to it and has distinct labels, and 'Con SIGEM' plus 'Sin SIGEM' equals it |
| Reportes.Contar | src/app/pages/reportes/reportes.component.ts:164-168 | the counts add up to the number of keys, each label's count is its number of occurrences, and labels are distinct and exactly the keys seen |
| Reportes.IncrementarCorrecto | src/app/pages/reportes/reportes.component.ts:164-168 | one `acc[k] = (acc[k] || 0) + 1` adds one to the total and to the count of k only, adds k as a label iff it is new, and keeps labels distinct |
| Reportes.IncrementarEtiquetas | src/app/pages/reportes/reportes.component.ts:164-168 | an increment keeps the labels in order and appends k at the end when it is new |
| Reportes.IncrementarSuma | src/app/pages/reportes/reportes.component.ts:164-168 | an increment adds one to the total |
| Reportes.IncrementarCantidad | src/app/pages/reportes/reportes.component.ts:164-168 | an increment adds one to the count of k and leaves every other count unchanged |
| Reportes.IncrementarDistintas | src/app/pages/reportes/reportes.component.ts:164-168 | an increment keeps the labels distinct |
| Reportes.ContarPositivo | src/app/pages/reportes/reportes.component.ts:164-168 | every label listed has a positive count |
| Reportes.ContarUnaEntrada | src/app/pages/reportes/reportes.component.ts:164-168 | with distinct labels, the count read for a label is that of its one entry |
| Reportes.EtiquetaAusente | src/app/pages/reportes/reportes.component.ts:164-168 | a label no entry carries reads as 0, so its first increment sets it to 1 |
| Reportes.PorDimensionCuenta | src/app/pages/reportes/reportes.component.ts:164-182 | 'No especificado' counts the participants with a missing or empty value plus those whose value is that label; any other label counts exactly its participants |
| Reportes.Categorias | src/app/pages/reportes/reportes.component.ts:165-166 | one label per participant, in order: its value, or 'No especificado' when missing or empty |
| Reportes.CategoriasCuenta | src/app/pages/reportes/reportes.component.ts:165-181 | a non-empty label occurs once per participant whose value is that label, and 'No especificado' also once per participant whose value is missing or empty |
| Reportes.SinSigemCuenta | src/app/pages/reportes/reportes.component.ts:185-192 | 'Con SIGEM' counts the participants with a truthy `sigem`, and 'Sin SIGEM' counts the others |
| Reportes.PorcentajeRedondeo | src/app/pages/reportes/reportes.component.ts:207 | the percentage is 100·count/total rounded half up, and 0 when the total is 0 |
| Reportes.PorcentajeAcotado | src/app/pages/reportes/reportes.component.ts:207 | a count between 0 and the total gives a percentage between 0 and 100 |
| Reportes.EstadisticasArray | src/app/pages/reportes/reportes.component.ts:202-209 | a missing object gives []; otherwise the rows are a permutation of one row per entry |
| Reportes.EstadisticasArrayFilas | src/app/pages/reportes/reportes.component.ts:203-207 | one row per entry, with its label and count kept and its percentage computed |
| Reportes.Filas | src/app/pages/reportes/reportes.component.ts:203-207 | one row per entry, in order, with its label, its count and its percentage of the total |
| Reportes.EstadisticasArrayOrdenada | src/app/pages/reportes/reportes.component.ts:208 | the rows are in non-increasing count |
| Reportes.EstadisticasArrayDistintas | src/app/pages/reportes/reportes.component.ts:203-208 | distinct labels stay distinct in the rows |
| Reportes.EncuestadoresDistintos | src/app/pages/reportes/reportes.component.ts:135-146 | the enumerator list has one entry per user id |
| Reportes.EncuestadoresCubren | src/app/pages/reportes/reportes.component.ts:136-146 | every participant's user id appears in the list |
| Reportes.EncuestadoresDeParticipantes | src/app/pages/reportes/reportes.component.ts:139-144 | every entry is built from the user of some participant |
| Reportes.EncuestadoresPrimeraAparicion | src/app/pages/reportes/reportes.component.ts:138-145 | the entry kept for an id is the one built from its first occurrence |
| Reportes.EncuestadoresOrdenados | src/app/pages/reportes/reportes.component.ts:147-149 | the list is sorted by the lower-cased "apellido, nombre" key |
| Reportes.PorNombreCompletoPreorden | src/app/pages/reportes/reportes.component.ts:147-149 | the `localeCompare` comparator on the full name is a total preorder |
| Reportes.TieneClaveMapeo | src/app/pages/reportes/reportes.component.ts:139-146 | building an enumerator from a user keeps its id, so an id is among the entries iff it is among the users |
| Reportes.EncuestadorCubre | src/app/pages/reportes/reportes.component.ts:136-146 | a participant whose user is among the de-duplicated users has its id in the list |
| Reportes.ReportesComponente.ConstruirListaEncuestadores | src/app/pages/reportes/reportes.component.ts:130-155 | the loop over the participants into a map, then the sort, leaves the list the enumerator function describes |
| Reportes.ValoresDelMapaAgregar | src/app/pages/reportes/reportes.component.ts:137-146 | one more participant adds an entry for its user exactly when no entry has that user's id yet, and otherwise leaves the map unchanged |
| Reportes.ReportesComponente.AgregarEncuestador | src/app/pages/reportes/reportes.component.ts:137-146 | one step of the loop turns the map of the first `i` participants into the map of the first `i + 1` |
| Reportes.ReportesComponente.constructor | src/app/pages/reportes/reportes.component.ts:33-47 | no participants, no filtered participants and no enumerators |
| Reportes.ReportesComponente.EstadisticasActuales | src/app/pages/reportes/reportes.component.ts:158-160 | the demographics are null iff the participants are missing or empty |
| Reportes.TotalRespuestasConcat | src/app/pages/reportes/reportes.component.ts:227-229 | the answer total of a concatenation is the sum of the totals |
| Reportes.TotalRespuestasDesdeElFrente | src/app/pages/reportes/reportes.component.ts:227-229 | the total is the first participant's answer count plus the rest's total |
| Reportes.ReportesComponente.TotalRespuestasFiltradas | src/app/pages/reportes/reportes.component.ts:227-229 | the sum of the answer counts of the filtered participants: for a non-empty list, the first one's count plus the total of the rest |
| PreguntasRespondidas.PaginasVisibles | src/app/pages/reportes/preguntasRespondidas/preguntasRespondidas.component.ts:154-170 | at most 5 pages, exactly min(5, totalPaginas); consecutive increasing numbers within [1, totalPaginas]; the current page is present whenever it is in range |
| PreguntasRespondidas.PreguntasRespondidasComponente.constructor | src/app/pages/reportes/preguntasRespondidas/preguntasRespondidas.component.ts:16-35 | page 1 of 10, totals 0, no filter selected, no expanded answer, not loading, nothing sent and no alert |
| PreguntasRespondidas.PreguntasRespondidasComponente.CargarRespuestas | src/app/pages/reportes/preguntasRespondidas/preguntasRespondidas.component.ts:74-100 | marks the page as loading and sends the request for the current page, size and filters; the reply is taken as `TrasRespuesta` says |
| PreguntasRespondidas.PreguntasRespondidasComponente.ConsultaActual | src/app/pages/reportes/preguntasRespondidas/preguntasRespondidas.component.ts:76-83 | the request carries the current page and size; the enumerator id goes exactly when it is truthy, the gender and each date exactly when non-empty, always with the selected value, and the SIGEM flag whenever one is selected |
| PreguntasRespondidas.TrasRespuesta | src/app/pages/reportes/preguntasRespondidas/preguntasRespondidas.component.ts:84-99 | while no reply has arrived the page stays loading; a page of results stops the loading and takes its `total` and `totalPaginas`; an API error stops the loading, shows its message and keeps the old totals |
| PreguntasRespondidas.Alternar | src/app/pages/reportes/preguntasRespondidas/preguntasRespondidas.component.ts:175-183 | the toggled id changes membership and no other id does, so toggling it twice gives back the set (`AlternarDosVeces`) |
| PreguntasRespondidas.PreguntasRespondidasComponente.ToggleExpansion | src/app/pages/reportes/preguntasRespondidas/preguntasRespondidas.component.ts:175-184 | the in-place `Set` update gives the toggled set |
| PreguntasRespondidas.ToggleDosVeces | src/app/pages/reportes/preguntasRespondidas/preguntasRespondidas.component.ts:175-188 | two toggles of one answer restore the expanded set and every `estaExpandida` answer |
| PreguntasRespondidas.PreguntasRespondidasComponente.IrAPagina | src/app/pages/reportes/preguntasRespondidas/preguntasRespondidas.component.ts:142-152 | a page below 1, above totalPaginas or equal to the current page changes nothing and sends nothing; any other page becomes current and its request is sent, with the reply taken as `TrasRespuesta` says |
| PreguntasRespondidas.PreguntasRespondidasComponente.LimpiarFiltros | src/app/pages/reportes/preguntasRespondidas/preguntasRespondidas.component.ts:110-121 | no filter remains active, and page 1 is requested with the same page size and no filter at all; the reply is taken as `TrasRespuesta` says |
| PreguntasRespondidas.PreguntasRespondidasComponente.AplicarFiltros | src/app/pages/reportes/preguntasRespondidas/preguntasRespondidas.component.ts:102-105 | back to page 1, whose request carries the current filters; the reply is taken as `TrasRespuesta` says |
| PreguntasRespondidas.PreguntasRespondidasComponente.CambiarItemsPorPagina | src/app/pages/reportes/preguntasRespondidas/preguntasRespondidas.component.ts:134-137 | back to page 1, whose request carries the new page size; the reply is taken as `TrasRespuesta` says |
| AbmPreguntas.ProblemaDe | src/app/pages/preguntas/abmPreguntas/abmPreguntas.component.ts:104-123 | the checks run in order: a blank description first, then fewer than two answers, then a blank answer; the form passes iff none applies |
| AbmPreguntas.VerificacionFormularioSii | src/app/pages/preguntas/abmPreguntas/abmPreguntas.component.ts:104-123 | the message is '' iff the description is non-blank, there are at least two answers and none is blank; otherwise it is the first failing check's message, so the blank new-question form fails on its description (`FormVacioRechazado`) |
| AbmPreguntas.MensajeNoBlanco | src/app/pages/preguntas/abmPreguntas/abmPreguntas.component.ts:40-44 | the gate `errorMsj.trim() !== ''` holds exactly when a check failed |
| AbmPreguntas.EliminarIndice | src/app/pages/preguntas/abmPreguntas/abmPreguntas.component.ts:132-134 | removing index i of the list drops exactly that element and keeps the others in order |
| AbmPreguntas.EliminarFueraDeRango | src/app/pages/preguntas/abmPreguntas/abmPreguntas.component.ts:132-134 | an index past the end removes nothing; a negative one counts from the end |
| AbmPreguntas.EliminarAgregada | src/app/pages/preguntas/abmPreguntas/abmPreguntas.component.ts:126-134 | removing the row just added gives back the rows as they were |
| AbmPreguntas.AbmPreguntasComponente.AgregarRespuestas | src/app/pages/preguntas/abmPreguntas/abmPreguntas.component.ts:126-130 | one blank answer is appended and the rest of the form is unchanged |
| AbmPreguntas.AbmPreguntasComponente.EliminarRespuesta | src/app/pages/preguntas/abmPreguntas/abmPreguntas.component.ts:132-134 | the answers become the spliced list and the rest of the form is unchanged |
| AbmPreguntas.AbmPreguntasComponente.Guardar | src/app/pages/preguntas/abmPreguntas/abmPreguntas.component.ts:37-101 | a failing check shows its message and sends nothing; otherwise a confirmed save sends exactly one request, and a successful reply hides the modal |
| PreguntasServicio.PreguntasServicio.constructor | src/app/services/preguntas.service.ts:14-31 | hidden, in 'crear', with a blank description, single choice, two blank answers and nothing selected |
| PreguntasServicio.FormEdicion | src/app/services/preguntas.service.ts:47-58 | the description is copied, multiple choice only when the question says so, and the answers are copied in length and order with description and id |
| PreguntasServicio.CopiaRespuestas | src/app/services/preguntas.service.ts:55-58 | one row per answer, in order, with its description and its id |
| PreguntasServicio.PreguntasServicio.AbrirAbm | src/app/services/preguntas.service.ts:42-74 | shows the modal and records the mode, the question and the survey; 'editar' loads the question's form and 'crear' the blank one; editing a question without loaded `Respuestas` throws, leaving a form with its description, its flag and no answer rows |
| AbmEncuestas.ProblemaDe | src/app/pages/encuestas/abmEncuestas/abmEncuestas.component.ts:101-110 | the only check is a blank trimmed title |
| AbmEncuestas.VerificacionFormularioSii | src/app/pages/encuestas/abmEncuestas/abmEncuestas.component.ts:101-110 | 'El titulo es requerido' iff the trimmed title is empty, and '' otherwise, so the blank form is rejected (`FormVacioRechazado`) and the description plays no part (`DescripcionNoVerificada`) |
| AbmEncuestas.HayError | src/app/pages/encuestas/abmEncuestas/abmEncuestas.component.ts:40-44 | the gate `errorMsj.trim() !== ''` is true exactly when the check failed |
| AbmEncuestas.MensajeNoBlanco | src/app/pages/encuestas/abmEncuestas/abmEncuestas.component.ts:40-44 | the message is blank iff the check passed |
| AbmEncuestas.AbmEncuestasComponente.ReinicioFormulario | src/app/pages/encuestas/abmEncuestas/abmEncuestas.component.ts:120-125 | title and description become '' |
| AbmEncuestas.AbmEncuestasComponente.NuevaEncuesta | src/app/pages/encuestas/abmEncuestas/abmEncuestas.component.ts:37-70 | a blank title shows its message and sends nothing; a confirmed create sends the form with its author; a successful reply is passed on, the form is blanked and the modal hidden |
| AbmEncuestas.AbmEncuestasComponente.ActualizarEncuesta | src/app/pages/encuestas/abmEncuestas/abmEncuestas.component.ts:72-99 | the same gate, then an update of the selected survey with the form; success passes it on, blanks the form and hides the modal |
| AbmEncuestas.AbmEncuestasComponente.Submit | src/app/pages/encuestas/abmEncuestas/abmEncuestas.component.ts:112-118 | the one request added is a creation iff the mode is 'crear'; a failing check or no confirmation adds none |
| EncuestasServicio.EncuestasServicio.constructor | src/app/services/encuestas.service.ts:14-25 | hidden, in 'crear', with the blank form, no selection and no surveys |
| EncuestasServicio.EncuestasServicio.AbrirAbm | src/app/services/encuestas.service.ts:33-48 | shows the modal with the mode and the selection; 'editar' copies title and description and 'crear' blanks them |
| EncuestasServicio.ConsultaReporte | src/app/services/encuestas.service.ts:96-133 | the path ends with the report's segment; `fechaInicio`, `fechaFin` and `encuestadorId` are present iff truthy, so '' and 0 are left out, and the id is sent as a numeral that reads back as the id |
| EncuestasLista.EncuestasOrdenadasCorrecto | src/app/pages/encuestas/encuestas.component.ts:149-160 | the sorted list is a permutation, non-decreasing by lower-cased title for 'asc' and non-increasing otherwise |
| EncuestasLista.ComparadoresPreorden | src/app/pages/encuestas/encuestas.component.ts:149-160 | both title comparators are total preorders |
| EncuestasLista.EncuestasComponente.constructor | src/app/pages/encuestas/encuestas.component.ts:32-48 | page 1 of 10, no filters, sorted by id descending, not loading, no request sent and no detail page opened |
| EncuestasLista.PrimerIndice | src/app/pages/encuestas/encuestas.component.ts:107 | the first position of the id, or -1 iff it is absent |
| EncuestasLista.BuscarIndice | src/app/pages/encuestas/encuestas.component.ts:107 | the `findIndex` scan returns the first position of the id, or -1 |
| EncuestasLista.ReemplazoCorrecto | src/app/pages/encuestas/encuestas.component.ts:106-110 | the length is kept; the survey lands at the first position of its id and every other element stays; a missing id changes nothing |
| EncuestasLista.EncuestasComponente.NuevaEncuesta | src/app/pages/encuestas/encuestas.component.ts:98-104 | the list is re-sorted with the new survey added in front, so it gains exactly that survey; the router is then sent to that survey's detail page |
| EncuestasLista.EncuestasComponente.ActualizarEncuesta | src/app/pages/encuestas/encuestas.component.ts:106-113 | the list is the re-sorted replacement, with the length unchanged |
| EncuestasLista.EncuestasComponente.OrdenarEncuestas | src/app/pages/encuestas/encuestas.component.ts:149-160 | the list is re-sorted in place by the current direction |
| EncuestasLista.EncuestasComponente.OrdenarPorColumna | src/app/pages/encuestas/encuestas.component.ts:141-147 | sets the column, always flips the direction, and sends the list request with the new sort; a reply replaces the list and the total and stops the loading, and while none arrived the page is loading with both unchanged |
| EncuestasLista.EncuestasComponente.FiltrarParametro | src/app/pages/encuestas/encuestas.component.ts:135-139 | stores the text and goes back to page 1 |
| EncuestasLista.EncuestasComponente.CambiarPagina | src/app/pages/encuestas/encuestas.component.ts:162-165 | sets the page and sends its list request; a reply replaces the list and the total and stops the loading, and while none arrived the page is loading with both unchanged |
| EncuestasLista.EncuestasComponente.ListarEncuestas | src/app/pages/encuestas/encuestas.component.ts:77-96 | one request with the current sort, page and filters; a reply replaces the list and total and stops the loading flag |
| Comun.Invertir | src/app/pages/encuestas/encuestas.component.ts:143 | the flipped direction is always the other one, so flipping twice gives it back (`Comun.InvertirDosVeces`) |
| Barrios.EsKmlSii | src/app/pages/barrios/barrios.component.ts:187-194 | a file is accepted iff its name ends with '.kml'; the test is case-sensitive, so 'barrios.KML' is rejected (`Barrios.KmlEnMayusculasRechazado`) |
| Barrios.BarriosComponente.OnFileSelected | src/app/pages/barrios/barrios.component.ts:187-194 | a KML file is imported; anything else, or no file, shows the error and imports nothing |
| Barrios.BarriosComponente.constructor | src/app/pages/barrios/barrios.component.ts:38-55 | page 1 of 10, active neighbourhoods, sorted by description ascending, searching, total still undefined |
| Barrios.BarriosComponente.ListarBarrios | src/app/pages/barrios/barrios.component.ts:86-103 | one request with the current sort, filter and page; a reply fills the service's list and total |
| Barrios.BarriosComponente.CambiarPagina | src/app/pages/barrios/barrios.component.ts:105-109 | sets the page, marks the list as loading and sends its request; a reply replaces the list and the total and stops the loading, and while none arrived the list stays loading with both unchanged |
| Barrios.BarriosComponente.OrdenarPorColumna | src/app/pages/barrios/barrios.component.ts:111-119 | the same column flips the direction; another column is selected ascending; page 1 is requested either way, with the reply taken as in `CambiarPagina` |
| Barrios.BarriosComponente.FiltrarActivos | src/app/pages/barrios/barrios.component.ts:239-243 | stores the active filter and requests page 1; a reply replaces the list and the total and stops the loading, and while none arrived nothing else changes |
| Barrios.BarriosComponente.FiltrarParametro | src/app/pages/barrios/barrios.component.ts:245-249 | stores the page size and requests page 1; a reply replaces the list and the total and stops the loading, and while none arrived nothing else changes |
| Barrios.BarriosComponente.ToggleDropdownAcciones | src/app/pages/barrios/barrios.component.ts:251-253 | negates the dropdown flag |
| Barrios.BarriosComponente.CerrarDropdownAcciones | src/app/pages/barrios/barrios.component.ts:255-257 | closes the dropdown |
| BarriosServicio.BarriosServicio.AbrirAbm | src/app/services/barrios.service.ts:97-107 | records the mode and the neighbourhood and shows the modal; 'editar' with a neighbourhood copies its description, and every other case blanks it |
| BarriosServicio.BarriosServicio.constructor | src/app/services/barrios.service.ts:13-17 | 'crear', hidden, no neighbourhoods, nothing selected and a blank form |
| BarriosServicio.BarriosServicio.CerrarAbm | src/app/services/barrios.service.ts:109-113 | hides the modal, clears the selection and blanks the form, and leaves the mode and the list unchanged |
| BarriosServicio.AbrirYCerrar | src/app/services/barrios.service.ts:97-113 | opening then closing leaves the modal closed with the mode that was opened |
| CrearBarrio.CrearBarrioComponente.constructor | src/app/pages/barrios/crearBarrio/crearBarrio.component.ts:26-39 | blank description, map loading, no points, counter 0 |
| CrearBarrio.CrearBarrioComponente.InicializarMapa | src/app/pages/barrios/crearBarrio/crearBarrio.component.ts:69-184 | the counter goes up by one; past 5 the map shows the error and stops loading; a failure retries only below 5 and before the map exists |
| CrearBarrio.CrearBarrioComponente.CadenaDeIntentos | src/app/pages/barrios/crearBarrio/crearBarrio.component.ts:69-184 | a chain of retries from 0 makes at most 6 attempts, and the sixth always ends in the error state |
| CrearBarrio.CrearBarrioComponente.RecargarMapa | src/app/pages/barrios/crearBarrio/crearBarrio.component.ts:189-209 | the counter goes back to 0 and the map is loading again without error |
| CrearBarrio.CrearBarrioComponente.AgregarPunto | src/app/pages/barrios/crearBarrio/crearBarrio.component.ts:214-234 | the point is appended at the end; the polygon is drawn from the points once there are at least 3 |
| CrearBarrio.TresPuntosDibujanPoligono | src/app/pages/barrios/crearBarrio/crearBarrio.component.ts:214-234 | three clicks on an empty map draw the polygon of those three points |
| CrearBarrio.CrearBarrioComponente.LimpiarMapa | src/app/pages/barrios/crearBarrio/crearBarrio.component.ts:260-275 | no points and no polygon |
| CrearBarrio.ProblemaDe | src/app/pages/barrios/crearBarrio/crearBarrio.component.ts:282-290 | a blank trimmed description is rejected first, then fewer than 3 points; the form passes iff neither applies |
| CrearBarrio.CrearBarrioComponente.GuardarBarrio | src/app/pages/barrios/crearBarrio/crearBarrio.component.ts:280-322 | a failing check shows its message and asks nothing; otherwise a confirmed save sends the trimmed description, the points and the author; success shows 'Barrio creado correctamente' and leaves the page, failure shows the creation error |
| CrearBarrio.CrearBarrioComponente.EnviarBarrio | src/app/pages/barrios/crearBarrio/crearBarrio.component.ts:306-319 | the request is sent; the saving flag stays up until a reply arrives; success shows 'Barrio creado correctamente' and leaves the page, failure shows the creation error |
| CrearBarrio.DescripcionEnviada | src/app/pages/barrios/crearBarrio/crearBarrio.component.ts:301 | the description sent is non-empty, has no white space at either end, and trimming it again changes nothing |
| CrearBarrio.CrearBarrioComponente.Cancelar | src/app/pages/barrios/crearBarrio/crearBarrio.component.ts:327-340 | asks for confirmation iff there is a point or a non-blank description; otherwise it leaves at once |
| Geolocalizacion.DescripcionesUnicasCubren | src/app/pages/barrios/geolocalizacionBarrios/geolocalizacionBarrios.component.ts:113-115 | every neighbourhood's description is offered |
| Geolocalizacion.GeolocalizacionComponente.constructor | src/app/pages/barrios/geolocalizacionBarrios/geolocalizacionBarrios.component.ts:37-42 | no neighbourhoods, loading, an empty filter, no descriptions, no error |
| Geolocalizacion.OrdenTextoPreorden | src/app/pages/barrios/geolocalizacionBarrios/geolocalizacionBarrios.component.ts:114 | the default string sort order is a total preorder |
| Geolocalizacion.DescripcionesUnicasSoloDeBarrios | src/app/pages/barrios/geolocalizacionBarrios/geolocalizacionBarrios.component.ts:113-115 | only descriptions of neighbourhoods are offered |
| Geolocalizacion.DescripcionesUnicasCrecientes | src/app/pages/barrios/geolocalizacionBarrios/geolocalizacionBarrios.component.ts:113-115 | the descriptions are strictly increasing, so each appears once and they are sorted |
| Geolocalizacion.GeolocalizacionComponente.ObtenerDescripcionesUnicas | src/app/pages/barrios/geolocalizacionBarrios/geolocalizacionBarrios.component.ts:113-115 | the field becomes the sorted distinct descriptions |
| Geolocalizacion.ConDescripcionCorrecto | src/app/pages/barrios/geolocalizacionBarrios/geolocalizacionBarrios.component.ts:120-121 | the filter keeps every neighbourhood of that description as often as it occurs and no other, in their original order |
| Geolocalizacion.Filtrado | src/app/pages/barrios/geolocalizacionBarrios/geolocalizacionBarrios.component.ts:117-125 | the drawn list is never longer than the full list |
| Geolocalizacion.GeolocalizacionComponente.FiltrarPorDescripcion | src/app/pages/barrios/geolocalizacionBarrios/geolocalizacionBarrios.component.ts:117-125 | the empty filter draws every neighbourhood; any other filter draws only those with exactly that description |
| Geolocalizacion.GeolocalizacionComponente.EscribirFiltro | src/app/pages/barrios/geolocalizacionBarrios/geolocalizacionBarrios.component.ts:41 | the filter text is bound and the drawn list is not recomputed |
| Geolocalizacion.GeolocalizacionComponente.CargarBarrios | src/app/pages/barrios/geolocalizacionBarrios/geolocalizacionBarrios.component.ts:94-111 | a reply shows every neighbourhood and recomputes the descriptions; a failure is reported; loading stops either way |
| Geolocalizacion.GeolocalizacionComponente.ObtenerEstadisticas | src/app/pages/barrios/geolocalizacionBarrios/geolocalizacionBarrios.component.ts:228-233 | outlined filtered neighbourhoods ≤ filtered ≤ total, and with no filter applied the filtered count equals the total (`Geolocalizacion.SinFiltroTodosDibujados`) |
| Geolocalizacion.GeolocalizacionComponente.MostrarTodosLosBarrios | src/app/pages/barrios/geolocalizacionBarrios/geolocalizacionBarrios.component.ts:235-240 | clears the filter and draws the full list |
| Geolocalizacion.GeolocalizacionComponente.LimpiarSeleccion | src/app/pages/barrios/geolocalizacionBarrios/geolocalizacionBarrios.component.ts:242-247 | clears the filter and draws the full list |
| ReportesGenerales.FechasInvertidasSii | src/app/pages/reportes/reportesGenerales/reportesGenerales.component.ts:87 | the guard rejects exactly a range whose two ends are both set and whose start is not at or before its end; equal dates pass |
| ReportesGenerales.ReportesGeneralesComponente.constructor | src/app/pages/reportes/reportesGenerales/reportesGenerales.component.ts:17-38 | not loading, no dates, no active filter, both sections shown |
| ReportesGenerales.FechaEnviada | src/app/pages/reportes/reportesGenerales/reportesGenerales.component.ts:63-64 | an empty date is not sent, and any other is sent as it is |
| ReportesGenerales.ReportesGeneralesComponente.CargarEstadisticas | src/app/pages/reportes/reportesGenerales/reportesGenerales.component.ts:61-81 | one request with the non-empty dates; after a success `filtrosActivos` holds iff either date was non-empty |
| ReportesGenerales.ReportesGeneralesComponente.AplicarFiltros | src/app/pages/reportes/reportesGenerales/reportesGenerales.component.ts:86-92 | an inverted range shows the error and sends nothing; any other range reloads |
| ReportesGenerales.ReportesGeneralesComponente.LimpiarFiltros | src/app/pages/reportes/reportesGenerales/reportesGenerales.component.ts:97-102 | both dates are cleared, `filtrosActivos` is false and the reload carries no dates |
| ReportesGenerales.TogglesDosVeces | src/app/pages/reportes/reportesGenerales/reportesGenerales.component.ts:107-116 | each toggle negates its flag, so two toggles restore both sections |
| ReportesGenerales.ReportesGeneralesComponente.ToggleDistribucion | src/app/pages/reportes/reportesGenerales/reportesGenerales.component.ts:107-109 | negates the distribution flag |
| ReportesGenerales.ReportesGeneralesComponente.ToggleDemografia | src/app/pages/reportes/reportesGenerales/reportesGenerales.component.ts:114-116 | negates the demographics flag |
| EncuestasDisponibles.EncuestasActivasCorrecto | src/app/pages/public/encuestas-disponibles/encuestas-disponibles.component.ts:59-61 | every survey shown is 'Activa'; every assignment of an active survey appears, in input order; no more surveys than assignments |
| EncuestasDisponibles.EncuestasDisponiblesComponente.constructor | src/app/pages/public/encuestas-disponibles/encuestas-disponibles.component.ts:16-17 | no surveys, loading |
| EncuestasDisponibles.EncuestasDisponiblesComponente.CargarEncuestasAsignadas | src/app/pages/public/encuestas-disponibles/encuestas-disponibles.component.ts:42-69 | without a truthy user id nothing is requested, loading stops and the user is sent to login; otherwise the assignments are requested and a reply shows the active surveys |
| PreguntasRespondidasServicio.ConsultaAgrupadas | src/app/services/preguntasRespondidas.service.ts:72-111 | `pagina` and `itemsPorPagina` are always sent as numerals, defaulting to 1 and 10; `creatorUserId` only when truthy; `genero` and the dates only when non-empty; `sigem` whenever given, false included |
| PreguntasRespondidasServicio.Filtros | src/app/services/preguntasRespondidas.service.ts:87-105 | `creatorUserId` is sent, as a numeral reading back as the id, only when truthy; `genero` and the dates only when non-empty; `sigem` whenever given, as 'true' or 'false' |
| PreguntasRespondidasServicio.BooleanoATexto | src/app/services/preguntasRespondidas.service.ts:95-96 | a boolean is sent as 'true' iff it is true, and as 'false' iff it is false |
| RespuestasServicio.RespuestasServicio.constructor | src/app/services/respuestas.service.ts:14-21 | hidden, in 'crear', with a blank description and nothing selected |
| RespuestasServicio.RespuestasServicio.AbrirAbm | src/app/services/respuestas.service.ts:32-45 | shows the modal and records the mode and the selection; 'editar' takes the description from `contenido`, and any other mode blanks it |
| RespuestasServicio.EditarLuegoCrear | src/app/services/respuestas.service.ts:32-45 | opening to create after editing leaves nothing of the edited answer in the form |

## Left out

- HTTP and Observables: every request is recorded as a value, and its reply is a method parameter. Token headers, the server's swaps, statistics and PDF/JSON generation are not part of this model.
- Confirmation dialogs, toasts, loading alerts and router navigation: a dialog is a boolean parameter. The navigations of the modelled operations are recorded, and so are the messages the introduction lists. Operations outside this model, such as deleting a survey from its detail page, are not recorded.
- Success toasts and API-error alerts: `AbmPreguntas.AbmPreguntasComponente.Guardar`, `AbmEncuestas.AbmEncuestasComponente.NuevaEncuesta`, `AbmEncuestas.AbmEncuestasComponente.ActualizarEncuesta`, `DetallesEncuestas.EjecutarReordenamiento` and `Barrios.BarriosComponente.ListarBarrios` (with the list methods that call it) do not record the toast of a successful reply or the `errorApi` alert of a failed one. In `AbmEncuestas` and `Barrios` a failed reply is modelled as no reply. In `Guardar` and the reorder chain a failure is a reply outcome of its own, and the chain stops at it. On a failure the source changes nothing but the alert, so the modelled state is the one the source reaches.
- Leaflet: map creation, tiles, markers, polygon layers and bounds are left out, and so is the detail page of a neighbourhood. A point's coordinates are opaque reals.
- CrearBarrio.CrearBarrioComponente.InicializarMapa: the outcome of one attempt is a parameter, and the Leaflet and DOM checks that produce it are left out. The `setTimeout` retries are modelled as a chain of calls (`CadenaDeIntentos`).
- CrearBarrio.CrearBarrioComponente.LimpiarMapa: the exception when the map is null, and the layer removal, are left out.
- Chart.js charts, colours and label formatting are left out.
- Floating point: percentages are computed exactly, as `Math.round` of the integer quotient. IEEE rounding is not modelled.
- String order: `localeCompare` and the default `sort` are modelled as code-point order. Locale rules are left out. `toLowerCase` covers ASCII and Latin-1 letters only.
- Reportes.EstadisticasArray: `Object.entries` is taken in first-insertion order. JavaScript lists integer-like keys first, and that case is left out.
- Dates: ISO formatting and parsing, `toLocaleDateString`, and the file names built from the clock are left out. Date filters are plain strings.
- Timers and debouncing, DOM access, scrolling, Blob download and `FileReader` are left out.
- Barrios.BarriosComponente.FiltrarParametro: receives the result of `Number(...)` as a number that may be missing or `NaN`. The conversion from text is not modelled.
- Barrios.BarriosComponente.OnFileSelected: the import request is recorded. The list reload after the import reply is not modelled.
- EncuestasServicio.ConsultaReporte: a `NaN` enumerator id is outside the model, because ids are integers here.
- RespuestasServicio.RespuestasServicio.AbrirAbm: editing reads the `contenido` property as written. The `Respuesta` interface calls that field `descripcion`, and no caller in the repository shows which object is passed, so a missing `contenido` is modelled as `undefined` in the form.
- Editing with no record selected: `EncuestasServicio.EncuestasServicio.AbrirAbm` and `RespuestasServicio.RespuestasServicio.AbrirAbm` in 'editar' mode, `PreguntasServicio.PreguntasServicio.AbrirAbm` in 'editar' mode with no question, `AbmPreguntas.AbmPreguntasComponente.Guardar` with no selected survey (or, when updating, no selected question), and `AbmEncuestas.AbmEncuestasComponente.ActualizarEncuesta` and `Submit` with no selected survey. In each case the source dereferences `null` and throws. No caller in the repository reaches these states, so these members require a selected record instead of modelling the exception.
- The login, home and neighbourhood-modal relay components, and the pure HTTP wrapper services, are not part of this model.
- Geolocalizacion.GeolocalizacionComponente.CargarBarrios: the error message text comes from the server and is counted, not stored.
