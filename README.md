# votacom, modelled in Dafny

votacom manages owners' associations (*comunidades de propietarios*): communities, their
dwellings (*viviendas*, each with a door number and a participation coefficient), their
users (residents, community administrators and a superadmin), and the votes the
administrators call (*votaciones*). A dwelling casts one ballot per session, counted either
one dwelling one vote or weighted by coefficient, and the session is decided by a simple,
three-fifths or unanimous majority.

This project models the core of that system and proves properties of it:

- **Schemas**: the five Mongoose schemas (`ModeloVotacion`, `ModeloVoto`, `ModeloVivienda`,
  `ModeloUsuario`, `ModeloComunidad`). Each models its trimming and lower-casing setters,
  required fields, enumerations and defaults, and the unique indexes, as predicates over
  the stored collections. A write the index refuses is a duplicate-key error.
- **Store**: `Almacen.Db` is a class whose map fields are the collections. Its `Valid()`
  holds every unique index and every stored session's validation. The `$addToSet` and
  `$pull` updates of resident and administrator lists are functions on those maps.
- **Controllers**: the handlers of the session, dwelling, user, community and
  authentication controllers (those not modelled are listed under "## Left out"). A
  handler that changes the store is modelled in three parts:
  - a pure plan function, whose branches are the handler's guards in source order, with
    the same status codes;
  - lemmas stating its refusals and its outcome;
  - a method on `Db` that performs the writes the handler performs, in the same order.
  
  Where the handler saves and then fails, the earlier writes stay. The read and list
  handlers are functions or query methods with their filters and refusals.

  The update handlers pass the request body on to the database. Each one's change record
  (`ControladorVotacion.Cambios`, `ControladorVivienda.CambiosVivienda`,
  `ControladorUsuario.CambiosUsuario`) therefore holds every schema path a body can set,
  `creador`, `habitantes` and the raw `vivienda` and `comunidad` of a user included.
- **Tally and verdict**: the result tally of `getResultadosVotacion` is `Recuento`, with
  its loops and its in-place sort. The front-end verdicts (`Resultados`,
  `ListaVotaciones`), the participation report (`Informe`) and the session page's time
  logic (`EstadoVotacion`) are also modelled.
- **Periodic job and middleware**: the periodic job that closes expired sessions is
  `Cron`. The authentication middleware is `Middleware`.

Clocks, identifiers, random join codes, password hashing and token signatures are
parameters: `now`, fresh ids with `requires id !in ...`, `codigo`, `hash`, `verificar`.

Two invariants are not part of `Db.Valid()`. The handlers' lemmas prove that they
preserve them, except where "## Left out" names a request that breaks them:

- `Almacen.Coherente`: a user names a dwelling exactly when that dwelling lists the user
  as a resident;
- `Almacen.AdminsCoherentes`: a user listed as a community's administrator is an admin of
  that community.

Source paths below are relative to the repository root.

## Model

| member | source | states |
|---|---|---|
| ModeloVotacion.ParseTipoMayoria | backend/models/Votacion.js:35-39 | exactly `simple`, `tres_quintos` and `unanimidad` are read as the three majority rules; anything else is refused |
| ModeloVotacion.ParseSistemaRecuento | backend/models/Votacion.js:40-44 | exactly `vivienda` and `coeficiente` are admitted; every other string, `simple` included, is refused |
| ModeloVotacion.SimpleNoEsSistemaRecuento | backend/models/Votacion.js:40-44 | the `simple` counting system the controllers test for can never be stored |
| ModeloVotacion.ParseEstado | backend/models/Votacion.js:45-49 | exactly `pendiente`, `activa` and `finalizada` are read as the three lifecycle states; anything else is refused |
| ModeloVotacion.Normalizar | backend/models/Votacion.js:4-20 | the trim setters: title, description and every option label are trimmed; ids, dates, state, community and creator are kept |
| ModeloVotacion.NormalizarOpciones | backend/models/Votacion.js:14-20 | every option keeps its id and position and gets its label trimmed |
| ModeloVotacion.Guardar | backend/models/Votacion.js:3-34 | a save succeeds iff the trimmed title, description and labels are non-blank and `fechaFin > fechaInicio`; it then stores the normalised document, else 400 |
| ModeloVotacion.NormalizarValida | backend/models/Votacion.js:4-34 | a normalised session is valid iff the required texts are non-blank after trimming and the end follows the start |
| ModeloVotacion.OpcionesNormalizadas | backend/models/Votacion.js:14-20 | trimmed labels are stored trimmed, and each is non-blank iff the label sent was |
| ModeloVotacion.Enumerado | backend/models/Votacion.js:35-49 | a sent enumeration string casts exactly when it names a value of the enumeration, and then to that value; an unsent one stays unsent |
| ModeloVotacion.Crear | backend/models/Votacion.js:21-63 | the defaults: start now, `simple`, `vivienda`, `pendiente`, partial results hidden; a sent enumeration string is read as its value; a missing `fechaFin`, a date or flag that does not cast, an enumeration string naming no value, blank texts or an end not after the start are a 400; a created session is valid |
| ModeloVotacion.MayoriaFueraDeEnum | backend/models/Votacion.js:35-39 | a create body with `tipoMayoria: "mayoria"` is refused with 400 |
| ModeloVoto.Insertar | backend/models/VotoEmitido.js:36-40 | a ballot is stored iff no stored ballot has the same (dwelling, session) key, else duplicate key 400 |
| ModeloVoto.InsertarConservaIndice | backend/models/VotoEmitido.js:36-40 | every accepted insertion keeps the one-ballot-per-dwelling-per-session index |
| ModeloVoto.ComoMucho | backend/models/VotoEmitido.js:36-40 | under the index at most one ballot carries any (dwelling, session) key |
| ModeloVoto.MismaViviendaOtroUsuario | backend/models/VotoEmitido.js:36-40 | a second user of the same dwelling cannot vote in the same session: the user is not part of the key |
| ModeloVoto.MismaViviendaOtraVotacion | backend/models/VotoEmitido.js:36-40 | the same dwelling can vote in two different sessions |
| ModeloVivienda.Guardar | backend/models/Vivienda.js:3-26 | a save succeeds iff the trimmed door number is non-blank and the coefficient is at least 0; it stores the trimmed door, else 400 |
| ModeloVivienda.DerechoVotoPorDefecto | backend/models/Vivienda.js:14-17 | `derechoVoto` is true unless a value was given |
| ModeloVivienda.CantidadHabitantes | backend/models/Vivienda.js:38-41 | the `cantidadHabitantes` virtual is the length of the resident list |
| ModeloVivienda.CantidadTrasAlta | backend/models/Vivienda.js:38-41 | adding a resident set-wise grows the count by one exactly when they were not listed |
| ModeloVivienda.Escribir | backend/models/Vivienda.js:35-36 | a write succeeds iff no other dwelling of the same community has that door number, else duplicate key 400 |
| ModeloVivienda.EscribirConservaIndice | backend/models/Vivienda.js:35-36 | every accepted write keeps door numbers unique within each community |
| ModeloVivienda.MismaPuertaOtraComunidad | backend/models/Vivienda.js:35-36 | the same door number is accepted in another community |
| ModeloUsuario.ParseRol | backend/models/Usuario.js:24-28 | a missing role defaults to `vecino`; exactly `vecino`, `admin` and `superadmin` are admitted |
| ModeloUsuario.EmailValido | backend/models/Usuario.js:16 | decides the pattern `^\S+@\S+\.\S+$` exactly, with `\S` any character outside the ECMAScript white-space and line-terminator set (`Texto.IsSpace`): true iff the address matches it |
| ModeloUsuario.PrimeraArrobaBasta | backend/models/Usuario.js:16 | choosing the first `@` after position 0 loses no match |
| ModeloUsuario.NormalizarEmail | backend/models/Usuario.js:14-15 | the `lowercase` and `trim` setters: the stored address is the trimmed lower-case one |
| ModeloUsuario.NormalizarEmailIdempotente | backend/models/Usuario.js:14-15 | normalising a stored address changes nothing |
| ModeloUsuario.Guardar | backend/models/Usuario.js:4-52 | a save succeeds iff the trimmed name is non-blank, the normalised address matches the pattern and the plain password is at least 6 UTF-16 code units long (`Texto.Utf16Length`, as `minlength` counts); the password is hashed only when modified; else 400 |
| ModeloUsuario.PreGuardar | backend/models/Usuario.js:46-52 | the pre-save hook hashes the password exactly when it was modified |
| ModeloUsuario.Escribir | backend/models/Usuario.js:13 | a write succeeds iff no other user has the same address, else duplicate key 400 |
| ModeloUsuario.EscribirConservaIndice | backend/models/Usuario.js:13 | every accepted write keeps addresses unique |
| ModeloComunidad.Guardar | backend/models/Comunidad.js:3-29 | a save succeeds iff name, address, CIF and code are non-blank after trimming; it stores them trimmed and keeps the administrators, else 400 |
| ModeloComunidad.Escribir | backend/models/Comunidad.js:14-25 | a write succeeds iff no other community has the same CIF or the same code, else duplicate key 400 |
| ModeloComunidad.EscribirConservaIndices | backend/models/Comunidad.js:14-25 | every accepted write keeps CIFs and codes unique |
| Texto.Trim | backend/models/Votacion.js:7 | `trim` never lengthens a text, and its result is empty or starts and ends with a non-space |
| Texto.TrimIdempotent | backend/models/Votacion.js:7 | trimming a trimmed text changes nothing, so a stored text saves again unchanged |
| Texto.RecortadoTrim | backend/models/Votacion.js:6-7 | a text is stored-trimmed iff it is non-empty and its own trim; a non-blank trim is stored-trimmed |
| Texto.Lower | backend/models/Usuario.js:14 | `toLowerCase` keeps the length and lowers each character: `A`-`Z` move by 32, the Spanish capitals map to their small letters, and other characters stay |
| Texto.LowerIdempotent | backend/models/Usuario.js:14 | lowering twice is lowering once |
| Texto.ContainsOccurs | frontend/src/components/votaciones/ResultadosVotacion.jsx:17-25 | `includes` is true iff the fragment occurs at some position |
| Texto.Utf16Length | backend/controllers/authController.js:202 | `length` counts UTF-16 code units: at least one and at most two per character, and exactly one per character iff no character lies above U+FFFF |
| Texto.Utf16LengthConcat | backend/models/Usuario.js:21 | the length of a concatenation is the sum of the lengths |
| Texto.TresEmojis | backend/models/Usuario.js:21 | three characters above U+FFFF have `length` 6, so such a password passes the six-unit minimum |
| Arrays.AddToSet | backend/controllers/usuarioController.js:94-97 | `$addToSet`: the element is present afterwards, nothing else is added, and an already listed element leaves the list unchanged; otherwise it is appended |
| Arrays.Pull | backend/controllers/usuarioController.js:254-257 | `$pull`: exactly the other elements remain, and the element is gone |
| Arrays.PullAddToSet | backend/controllers/usuarioController.js:186-198 | pulling what `$addToSet` added to a list that lacked it restores the list |
| Arrays.Minus | backend/controllers/comunidadController.js:154-164 | the `filter` with `!includes`: exactly the elements of the first list absent from the second |
| Almacen.Enumerar | backend/controllers/votacionController.js:417-418 | a query result lists every matching document exactly once, in an order the model leaves open |
| Almacen.GuardarValida | backend/controllers/votacionController.js:410-413 | re-saving a stored session succeeds and stores it unchanged |
| Almacen.SacarHabitante | backend/controllers/usuarioController.js:254-257 | `$pull` from one dwelling's residents; every other dwelling is unchanged, and an unknown dwelling id changes nothing |
| Almacen.MeterHabitante | backend/controllers/usuarioController.js:94-97 | `$addToSet` to one dwelling's residents; every other dwelling is unchanged |
| Almacen.MeterAdmin | backend/controllers/usuarioController.js:104-107 | `$addToSet` to one community's administrators; every other community is unchanged |
| Almacen.SacarAdmin | backend/controllers/usuarioController.js:224-227 | `$pull` from one community's administrators; every other community is unchanged |
| Almacen.AltaCoherente | backend/controllers/usuarioController.js:90-98 | a new user added to the resident list of the dwelling they name keeps residence coherent in both directions |
| Recuento.Claves | backend/controllers/votacionController.js:442-449 | the keys of the `resultados` dictionary: each option id exactly once, and no others |
| Recuento.Participacion | backend/controllers/votacionController.js:437-439 | participation is all ballots over eligible dwellings times 100, or 0 without eligible dwellings; it lies in [0, 100] when ballots do not outnumber eligible dwellings |
| Recuento.Inicializar | backend/controllers/votacionController.js:442-449 | the initialisation loop leaves a zero row under every option id, the last label with that id winning, and records the key order |
| Recuento.Sumar | backend/controllers/votacionController.js:451-469 | the counting loop leaves each row equal to its count over all ballots and `votosValidos` equal to the number of counted ballots |
| Recuento.Total | backend/controllers/votacionController.js:478-480 | the `reduce` gives the total coefficient over the listed options |
| Recuento.Porcentajes | backend/controllers/votacionController.js:471-487 | the percentage loop fills each row, in key order, from its count and the valid total or the coefficient total |
| Recuento.Contar | backend/controllers/votacionController.js:441-487 | the three loops together give the rows of the reference tally `Filas` and `votosValidos` |
| Recuento.IntercambioConserva | backend/controllers/votacionController.js:497-503 | one swap in the insertion step keeps the sort invariant |
| Recuento.ParadaOrdena | backend/controllers/votacionController.js:497-503 | when the inserted row stops, the prefix is in descending order |
| Recuento.Insertar | backend/controllers/votacionController.js:497-503 | one insertion step leaves the prefix descending, the rows a permutation of the old ones, and the rows of every key in their old order |
| Recuento.Ordenar | backend/controllers/votacionController.js:496-503 | the sort is stable: the rows come out in descending order of votes, or of coefficient in coefficient mode, as a permutation of its input, with tied rows in their input order |
| Recuento.Tally | backend/controllers/votacionController.js:441-503 | the response rows are the reference rows `Filas` stably sorted in descending order, with `votosValidos` equal to the counted ballots |
| Recuento.EmpatadasConcat | backend/controllers/votacionController.js:496-503 | the rows of one key in a concatenation are those of each part, in order |
| Recuento.IntercambioEstable | backend/controllers/votacionController.js:497-503 | swapping two neighbours with different keys, the only swap the insertion makes, keeps the order of the rows of every key |
| Recuento.SumaVotosUnaMas | backend/controllers/votacionController.js:454-459 | one more ballot raises the vote total by one exactly when it names a listed option |
| Recuento.SumaVotosEsValidos | backend/controllers/votacionController.js:454-459 | per dwelling, the option counts add up to `votosValidos` |
| Recuento.SumaPorcentajesVivienda | backend/controllers/votacionController.js:472-475 | per dwelling, the percentages of the rows add up to the vote total over `votosValidos` times 100 |
| Recuento.PorcentajesSumanCienVivienda | backend/controllers/votacionController.js:472-475 | per dwelling, when some ballot counts, the percentages add up to exactly 100 before rounding |
| Recuento.SumaPorcentajesCoef | backend/controllers/votacionController.js:476-486 | by coefficient, the percentages add up to the coefficient total over itself times 100 |
| Recuento.PorcentajesSumanCienCoeficiente | backend/controllers/votacionController.js:476-486 | by coefficient, when some coefficient was cast, the percentages add up to exactly 100 |
| Recuento.SumaCoefUnaMas | backend/controllers/votacionController.js:462-468 | one more ballot adds its coefficient exactly when it names a listed option and its dwelling exists |
| Recuento.SumaCoefEsCoefValido | backend/controllers/votacionController.js:462-468 | the coefficient column adds up to the coefficients of exactly the counted ballots |
| Recuento.VotosParaAcotados | backend/controllers/votacionController.js:454-459 | no listed option has more ballots than `votosValidos` |
| Recuento.PorcentajeAcotado | backend/controllers/votacionController.js:472-475 | every per-dwelling percentage lies between 0 and 100 |
| Recuento.OpcionDesconocidaIgnorada | backend/controllers/votacionController.js:455 | a ballot for an option the session does not offer changes no row and no counter |
| Recuento.SinPapeletas | backend/controllers/votacionController.js:442-449 | with no ballots, every row is the zero row of its option |
| Recuento.UnaFilaPorOpcion | backend/controllers/votacionController.js:442-449 | every option offered has a row, voted for or not |
| Resultados.ColorBarra | frontend/src/components/votaciones/ResultadosVotacion.jsx:16-27 | the bar is green exactly for favor labels, red for against, amber for abstention and the primary colour otherwise, with the label tests in source order |
| Resultados.RolesDeEtiquetas | frontend/src/components/votaciones/ResultadosVotacion.jsx:57-66 | `A favor` and `Sí` are favor labels, `En contra` and `No` are against labels, `Abstención` is an abstention label |
| Resultados.EsFavor | frontend/src/components/votaciones/ResultadosVotacion.jsx:59 | any label whose lower-case form contains `favor` is a favor label |
| Resultados.EsContra | frontend/src/components/votaciones/ResultadosVotacion.jsx:59-61 | a label that passes no favor test and contains `contra` is an against label |
| Resultados.EsAbstencion | frontend/src/components/votaciones/ResultadosVotacion.jsx:59-63 | a label that passes no favor or against test and contains `abstención` is an abstention label |
| Resultados.EtiquetaSiNo | frontend/src/pages/admin/AdminVotacionFormPage.jsx:240-245 | the `Sí` / `No` preset labels classify as favor and against |
| Resultados.UltimaDeSuRol | frontend/src/components/votaciones/ResultadosVotacion.jsx:57-66 | the classifying loop leaves a role empty iff no row has it, and otherwise holds the LAST row of that role |
| Resultados.UnicaDeSuRol | frontend/src/components/votaciones/ResultadosVotacion.jsx:57-66 | a row that is the only one of its role is the row the loop keeps for that role |
| Resultados.Clasificar | frontend/src/components/votaciones/ResultadosVotacion.jsx:53-66 | the loop's three variables are the reference classification `RolesDe` of the rows |
| Resultados.Decidir | frontend/src/components/votaciones/ResultadosVotacion.jsx:29-50 | no rows is undetermined; otherwise the session is postponed iff the figures add up to 0 |
| Resultados.DeterminarResultadoVotacion | frontend/src/components/votaciones/ResultadosVotacion.jsx:29-198 | the resolver as written, with the `reduce`, the loop and the decision chain, returns the reference decision `Decidir` |
| Resultados.SumaCero | frontend/src/components/votaciones/ResultadosVotacion.jsx:39-44 | with non-negative figures, the total is non-negative, and it is 0 iff every figure is 0 |
| Resultados.PostergadaSiNadieVota | frontend/src/components/votaciones/ResultadosVotacion.jsx:39-50 | a session is postponed exactly when no row carries a vote, or a coefficient in coefficient mode |
| Resultados.SinAcuerdoPorPresencia | frontend/src/components/votaciones/ResultadosVotacion.jsx:68-75 | an abstention row with no favor and no against row gives "no agreement" under every rule |
| Resultados.EmpateAntesDeLaRegla | frontend/src/components/votaciones/ResultadosVotacion.jsx:77-89 | equal favor and against figures are a tie under every rule, before any majority is computed |
| Resultados.ReglaUnanimidad | frontend/src/components/votaciones/ResultadosVotacion.jsx:95-121 | unanimity approves iff neither the against nor the abstention row carries anything, and otherwise rejects |
| Resultados.ReglaSimple | frontend/src/components/votaciones/ResultadosVotacion.jsx:123-163 | a simple majority approves iff favor exceeds against, abstentions excluded; it is a tie if they are equal and an against row exists, no agreement if they are equal without one, and otherwise a rejection |
| Resultados.ReglaTresQuintos | frontend/src/components/votaciones/ResultadosVotacion.jsx:164-181 | three fifths approves iff five times favor exceeds three times the total of all rows, abstentions included |
| Resultados.ContraSinFavor | frontend/src/components/votaciones/ResultadosVotacion.jsx:184-191 | an against row with no favor row is a rejection under every rule |
| Resultados.NoDeterminadoSinRoles | frontend/src/components/votaciones/ResultadosVotacion.jsx:193-197 | with some votes, the outcome is undetermined iff no row is favor, against or abstention |
| Resultados.TresContraDosSimple | frontend/src/components/votaciones/ResultadosVotacion.jsx:123-163 | 3 for and 2 against is approved by simple majority |
| Resultados.TresContraDosConAbstencion | frontend/src/components/votaciones/ResultadosVotacion.jsx:123-181 | 3 for, 2 against and 1 abstention: approved by simple majority and rejected by three fifths, because 3/6 is not over 60% |
| Resultados.FilasDelPreset | frontend/src/pages/admin/AdminVotacionFormPage.jsx:233-238 | the tally of the `A favor` / `En contra` / `Abstención` preset has one row per option, in that order, with the ballots of each |
| Resultados.FavorYContraUnicas | frontend/src/components/votaciones/ResultadosVotacion.jsx:57-66 | whatever order the three preset rows arrive in, the loop keeps the favor and the against row |
| Resultados.EmpateACero | frontend/src/components/votaciones/ResultadosVotacion.jsx:77-89 | three preset rows where only the abstention row has votes are a tie of 0 against 0 in any order |
| Resultados.PresetSoloAbstenciones | frontend/src/components/votaciones/ResultadosVotacion.jsx:68-89 | a preset session where every ballot is an abstention resolves to a tie, not to no agreement, under every rule: the tally lists the favor and against options with 0 votes, so the "only abstentions" branch never fires |
| ListaVotaciones.ClaseEstado | frontend/src/components/votaciones/VotacionesList.jsx:15-27 | the list's status class is pending iff the start is in the future, finished iff it started and the end has passed, and active otherwise; the stored state is not read |
| ListaVotaciones.TextoEstado | frontend/src/components/votaciones/VotacionesList.jsx:29-41 | the status text uses the same three tests and labels |
| ListaVotaciones.ClaseYTextoConcuerdan | frontend/src/components/votaciones/VotacionesList.jsx:15-41 | the class and the text always name the same status, the one given by the dates |
| ListaVotaciones.TextoSistema | frontend/src/components/votaciones/VotacionesList.jsx:43-54 | fixed labels for `vivienda`, `coeficiente` and `simple`; any other value is shown as it is; a missing or empty value is shown as "No especificado" |
| ListaVotaciones.TextoSistemaAlmacenado | frontend/src/components/votaciones/VotacionesList.jsx:43-54 | every counting system the schema admits is shown as "Por vivienda" or "Por coeficiente", never "Simple" |
| ListaVotaciones.Veredicto | frontend/src/components/votaciones/VotacionesList.jsx:92-150 | the badge never says postponed at this point; its cases: no agreement iff there are abstentions alone, a tie on equal favor and against, favor approved iff it beats against (0 when absent), against alone rejected, "Pendiente" iff no row has a role |
| ListaVotaciones.Insignia | frontend/src/components/votaciones/VotacionesList.jsx:57-90 | no badge unless the session is over by its dates and has results; postponed iff there is no valid ballot or every row is empty; otherwise the verdict on the rows' roles |
| ListaVotaciones.ResultadoVotacion | frontend/src/components/votaciones/VotacionesList.jsx:57-151 | the component's computation, with the `every` test and the classifying loop, gives the reference badge `Insignia` |
| ListaVotaciones.VeredictoFrenteASimple | frontend/src/components/votaciones/VotacionesList.jsx:115-135 | under simple majority the badge and the results page differ in exactly one case: a favor row with nothing in it and no against row, shown as rejected by the badge and as no agreement by the page |
| ListaVotaciones.TresQuintosDiscrepa | frontend/src/components/votaciones/VotacionesList.jsx:115-135 | 3 for, 2 against and 1 abstention under three fifths: the results page rejects and the list badge shows it approved |
| ListaVotaciones.UnanimidadDiscrepa | frontend/src/components/votaciones/VotacionesList.jsx:115-135 | 3 for and 1 against under unanimity: the results page rejects and the list badge shows it approved |
| EstadoVotacion.EstadoReal | frontend/src/hooks/useVotacionState.js:54-68 | the effective status: none without a session; finished iff stored finished or past the end; active iff neither and inside the window; pending otherwise |
| EstadoVotacion.FechasParticion | frontend/src/hooks/useVotacionState.js:22-51 | on a session ending after it starts, exactly one of active, finished and pending holds by the dates |
| EstadoVotacion.EstadoRealComoLista | frontend/src/hooks/useVotacionState.js:54-68 | on a session that is not stored finished and ends after it starts, the effective status agrees with the list's status by dates; with the end before the start, between the two dates, the page says finished and the list says pending |
| EstadoVotacion.PuedeVotarEnVentana | frontend/src/hooks/useVotacionState.js:276-284 | a user may vote iff they and the session exist, they have a dwelling and have not voted, the session is not stored finished, and start <= now <= end |
| EstadoVotacion.TiempoRestante | frontend/src/hooks/useVotacionState.js:330-361 | nothing iff the difference is not positive; otherwise hours < 24, minutes < 60 and seconds < 60, and the parts in milliseconds are at most the difference and within 1000 of it |
| EstadoVotacion.Descomposicion | frontend/src/hooks/useVotacionState.js:349-353 | the floor/mod parts are in range, and they add back up to the difference less under one second |
| EstadoVotacion.Hook.constructor | frontend/src/hooks/useVotacionState.js:5-19 | the hook starts with the loaded session, no ballot reported, no countdown, no interval and no reload |
| EstadoVotacion.Hook.Tick | frontend/src/hooks/useVotacionState.js:330-347 | the interval callback: a countdown from the end date, or, once the end is reached, interval cleared, countdown null and one refetch if none was made yet |
| EstadoVotacion.Hook.Activar | frontend/src/hooks/useVotacionState.js:324-373 | the interval is always started, fires until a run finds the end reached, and stays set exactly while no firing has reached the end; over any sequence of firings the session is refetched at most once, and exactly once iff the end was reached at activation or at some firing; while the end is not reached the countdown is the one for the last instant (`now` when nothing fired), and once the interval is cleared, or the end is reached with no firing timed before activation, no countdown is shown |
| EstadoVotacion.Hook.VotoEmitido | frontend/src/hooks/useVotacionState.js:203-234 | after a reported cast `yaVoto` holds whether or not the updated session came back; a returned session replaces the stored one |
| EstadoVotacion.TrasVotarNoPuede | frontend/src/hooks/useVotacionState.js:276-284 | once `yaVoto` is set nobody may vote from this screen |
| Informe.EstadoVivienda | frontend/src/components/votaciones/InformeParticipacion.jsx:34-77 | a dwelling without the right to vote is "sin-derecho" even if it voted; an eligible dwelling without a ballot is "no-voto"; otherwise the ballot's label gives favor, against, abstention or other by the resolver's label rules |
| Informe.Filtrar | frontend/src/components/votaciones/InformeParticipacion.jsx:79-88 | `todos` returns every dwelling; any other filter keeps exactly the dwellings of that category |
| Informe.FiltrarConservaOrden | frontend/src/components/votaciones/InformeParticipacion.jsx:84-87 | filtering works entry by entry, so the kept dwellings stay in their original order |
| Informe.RolPorPruebas | frontend/src/components/votaciones/InformeParticipacion.jsx:51-70 | the category's label chain is the summary's three tests taken in order, each excluding the earlier ones |
| Informe.ResumenFrenteAFiltro | frontend/src/components/votaciones/InformeParticipacion.jsx:116-135 | eligible plus ineligible is the total; `noVotaron` is the size of the "no-voto" filter and `sinDerechoVoto` that of the "sin-derecho" filter; each vote-label filter is no larger than its summary count |
| Informe.SinDerechoPeroContado | frontend/src/components/votaciones/InformeParticipacion.jsx:119-125 | an ineligible dwelling that voted in favour is filed "sin-derecho" yet counted in `votaron` and `aFavor` |
| Informe.FavorContra | frontend/src/components/votaciones/InformeParticipacion.jsx:122-130 | the label "favor contra" passes both the favor and the against test of the summary |
| Informe.ContadoDosVeces | frontend/src/components/votaciones/InformeParticipacion.jsx:116-135 | an eligible dwelling whose label passes both tests is filed as favor but counted in both `aFavor` and `enContra` |
| Cron.Seleccion | backend/utils/cronJobs.js:15-19 | the query selects exactly the stored sessions that are `activa` with `fechaFin <= now` |
| Cron.FinalizarVencidas | backend/utils/cronJobs.js:9-41 | the sweep sets the sessions to the reference result `Barrido`: every selected session whose save did not fail is finished; `actualizadas` counts the selected sessions less the failures, never more than were selected; other collections are untouched and the store stays valid |
| Cron.Recorrer | backend/utils/cronJobs.js:24-35 | the loop finishes exactly the visited sessions whose save did not fail, and counts them; a failure skips one session and the loop goes on |
| Cron.HechasPaso | backend/utils/cronJobs.js:26-34 | each visited id joins the saved set once, unless its save failed |
| Cron.Recorrido | backend/utils/cronJobs.js:16-35 | the ids saved over the whole loop are the selection less the failures |
| Cron.ParcialPaso | backend/utils/cronJobs.js:28-29 | finishing one more session extends the partial sweep by that session |
| Cron.ParcialValida | backend/utils/cronJobs.js:28-29 | finishing a stored session keeps it valid: the validator does not read `estado` |
| Cron.BarridoEs | backend/utils/cronJobs.js:26-35 | a map that finished exactly the selected sessions less the failures is the sweep's result |
| Cron.BarridoSoloCierra | backend/utils/cronJobs.js:16-29 | only the `estado` of selected sessions changes, and only to `finalizada`; pending and finished sessions are untouched |
| Cron.BarridoIdempotente | backend/utils/cronJobs.js:16-19 | after a sweep without failures nothing is selected, so a second run changes nothing |
| Cron.SegundoBarrido | backend/utils/cronJobs.js:16-34 | with failures, a second sweep selects exactly the sessions whose save failed the first time |
| Cron.FronteraFechaFin | backend/utils/cronJobs.js:18 | at `now == fechaFin` the sweep closes an active session, while the results read (`fechaFin < now`, backend/controllers/votacionController.js:406-410) does not, and the session page still shows it active |
| ControladorVotacion.FiltroVotaciones | backend/controllers/votacionController.js:9-18 | the `comunidad` query parameter filters for any caller; without one a non-superadmin is filtered by their own community, and a superadmin, or a caller with no community, is not filtered |
| ControladorVotacion.GetVotaciones | backend/controllers/votacionController.js:7-33 | the sessions listed are exactly those of the filtering community, or every session, each once |
| ControladorVotacion.VerVotacion | backend/controllers/votacionController.js:38-61 | any caller of the route reads any session; 404 exactly for an unknown id |
| ControladorVotacion.PlanCrearCorrecto | backend/controllers/votacionController.js:66-109 | a superadmin must name a community (400), anyone else without one is refused (400) and may only create in their own (403); a body value that does not cast is refused, with the schema's 400 once those guards pass; a created session is valid, owned by its creator, in the requested community and starts in the state the sent `estado` names, or `pendiente` |
| ControladorVotacion.CrearVotacion | backend/controllers/votacionController.js:66-109 | the store gains exactly the planned session under the new id, or nothing changes on a refusal (the schema's 400 on a value that does not cast included); the store stays valid |
| ControladorVotacion.PlanActualizarCorrecto | backend/controllers/votacionController.js:114-151 | an update is refused once ballots exist unless the session is pending, and when the merged end is not after the merged start; then a date or flag that does not cast, or an enumeration string naming no value, is the save's 400; an accepted one is a valid session holding every sent key, enumerations read as their values, `estado`, `comunidad` and `creador` included, and keeps its creator unless the body sends one |
| ControladorVotacion.FechaManual | backend/controllers/votacionController.js:130-131 | the handler's own check compares the sent date when one is sent, else the stored one, and an unparsable date is invalid |
| ControladorVotacion.CreadorReasignable | backend/controllers/votacionController.js:138-140 | a body holding only `creador` hands a pending session to that user and changes nothing else |
| ControladorVotacion.ActivaVuelveAPendiente | backend/controllers/votacionController.js:138-140 | sending only `estado: "pendiente"` moves an active session without ballots back to `pendiente`: the update does not guard the state |
| ControladorVotacion.EstadoFueraDeEnum | backend/controllers/votacionController.js:138-142 | `estado: "cerrada"` on a pending session passes the handler's checks and is refused by the save with 400 |
| ControladorVotacion.FechaInvalidaPasaComparacion | backend/controllers/votacionController.js:130-135 | an unparsable `fechaFin` slips past the handler's date comparison, which is false for an invalid date, and the save refuses it with 400 |
| ControladorVotacion.ActualizarVotacion | backend/controllers/votacionController.js:114-151 | an unknown id is 404 with nothing changed; otherwise the store holds the planned session or nothing changes (the save's 400 on a value that does not cast included); other collections are untouched |
| ControladorVotacion.PlanIniciarCorrecto | backend/controllers/votacionController.js:156-180 | starting succeeds exactly from `pendiente` before the end, setting `activa` and the start to now; any other state is 400, and a start at or past the end fails validation |
| ControladorVotacion.PlanFinalizarCorrecto | backend/controllers/votacionController.js:185-208 | finishing succeeds exactly from `activa` and changes only the state to `finalizada`; otherwise 400 |
| ControladorVotacion.TransicionesExplicitas | backend/controllers/votacionController.js:164-198 | the explicit transitions only go forward: start iff pending and before the end, finish iff active, and a finished session cannot be started again |
| ControladorVotacion.Transicion | backend/controllers/votacionController.js:156-208 | an unknown id is 404; otherwise the store holds the planned session or nothing changes |
| ControladorVotacion.PlanVoto | backend/controllers/votacionController.js:213-263 | the guard chain in order: unknown session 404, not stored as active 400, unknown option 404, no dwelling 400, a dwelling missing or without voting right 403, then an existing ballot of the dwelling 400; a ballot is accepted exactly when every check passes, and records the caller, the dwelling, the option, the session's community and now |
| ControladorVotacion.VotoTrasElFin | backend/controllers/votacionController.js:225 | the guard reads the stored state only, so an active session whose end has passed still takes ballots |
| ControladorVotacion.PlanVotoPasaIndice | backend/controllers/votacionController.js:213-263 | a ballot the guard accepts is never refused by the unique (dwelling, session) index |
| ControladorVotacion.EmitirVoto | backend/controllers/votacionController.js:213-383 | the store gains exactly the planned ballot, or nothing changes on a refusal; partial results come back iff a cast is accepted into a session that shows them, and they are then the session's full tally (`Recuenta`) over its ballots read after the insert (`Leidas`) |
| ControladorVotacion.Registrar | backend/models/VotoEmitido.js:36-40 | the insert adds exactly the ballot when no ballot holds its (dwelling, session) key |
| ControladorVotacion.EmitirVarios | backend/controllers/votacionController.js:213-383 | any sequence of casts keeps every earlier ballot and leaves at most one ballot per (dwelling, session) pair |
| ControladorVotacion.Calcular | backend/controllers/votacionController.js:437-503 | the tally reads each ballot of the session once (`Leidas`) and returns (`Recuenta`) its counting system, the valid-ballot total, every option once stably sorted by descending count, the eligible and total dwelling counts of the community, and participation over all the session's ballots |
| ControladorVotacion.GetResultadosVotacion | backend/controllers/votacionController.js:388-519 | unknown id 404; otherwise the tally is returned whatever the state, as `Recuenta` describes it over the session's ballots, and a session past its end that is not finished is saved as `finalizada` first, with nothing else changed |
| ControladorVotacion.CerrarVencida | backend/controllers/votacionController.js:404-413 | a session whose end has passed and that is not `finalizada` is saved as `finalizada`, and the store stays valid; otherwise nothing changes |
| ControladorVotacion.ValidosAcotados | backend/controllers/votacionController.js:437-503 | no more ballots are valid than were cast |
| ControladorVotacion.VerificarVoto | backend/controllers/votacionController.js:524-575 | an unknown user is 404; a superadmin learns whether the session has any ballot, a user without a dwelling gets false, anyone else whether their dwelling voted in the session |
| ControladorVotacion.VotoVerificado | backend/controllers/votacionController.js:537-565 | after a cast goes through, the caller's housemates are told their dwelling has voted, and a superadmin that the session has ballots |
| ControladorVotacion.SinVotosDe | backend/controllers/votacionController.js:589-597 | the remaining ballots are exactly those of other sessions, unchanged |
| ControladorVotacion.EliminarVotacion | backend/controllers/votacionController.js:580-606 | unknown id 404 with nothing changed; otherwise the session and exactly its ballots are removed |
| ControladorVotacion.GetInformeParticipacion | backend/controllers/votacionController.js:611-712 | a resident is refused 403, an unknown session is 404; the report has one entry per dwelling of the community, and each entry (`EntradaFiel`) carries that dwelling's door, coefficient, owner (`Propietario`) and voting right, and a ballot iff the dwelling voted in the session: that ballot's id, chosen option, option label (`Opción desconocida` when the option is gone), time and voter (none once the voter is deleted); the statistics count entries as the client summary does |
| ControladorVotacion.Propietario | backend/controllers/votacionController.js:652-655 | the owner shown is the first resident still stored (the populated list drops deleted users), and there is none (`No asignado`) exactly when no resident is stored |
| ControladorVivienda.Elegir | backend/controllers/viviendaController.js:12-13 | a non-empty set of dwellings yields one of its members; no sum depends on which |
| ControladorVivienda.SumaQuitar | backend/controllers/viviendaController.js:12-13 | any dwelling of the summed set can be added last: the sum is that coefficient plus the sum of the rest |
| ControladorVivienda.SumaExt | backend/controllers/viviendaController.js:12-13 | the sum reads only the coefficients of the dwellings summed |
| ControladorVivienda.SumaNoNegativa | backend/controllers/viviendaController.js:12-13 | coefficients of at least 0 give a sum of at least 0 |
| ControladorVivienda.SumaListaConjunto | backend/controllers/viviendaController.js:12-13 | folding a listing of distinct dwellings gives the sum of the set listed, whatever the order the query returns |
| ControladorVivienda.Otras | backend/controllers/viviendaController.js:6-12 | the query selects exactly the community's dwellings other than the excluded one |
| ControladorVivienda.CalcularSumaCoeficientes | backend/controllers/viviendaController.js:5-14 | the query plus the fold yields the sum of the coefficients of the selected dwellings |
| ControladorVivienda.SumaSinUna | backend/controllers/viviendaController.js:5-14 | a community's sum is one of its dwellings' coefficient plus the sum of the others |
| ControladorVivienda.SumaTrasEscribir | backend/controllers/viviendaController.js:5-14 | after writing a dwelling, its community's sum is its coefficient plus the others there, and every other community's sum is that of its dwellings other than this one |
| ControladorVivienda.SumaTrasBorrar | backend/controllers/viviendaController.js:309-315 | after deleting a dwelling, every community's sum is that of its other dwellings |
| ControladorVivienda.VerVivienda | backend/controllers/viviendaController.js:56-80 | unknown id 404; a superadmin reads any dwelling; a caller without a community 403; a dwelling whose community no longer exists makes the populated `comunidad._id` throw, 500; outside the caller's community 403; otherwise the stored dwelling |
| ControladorVivienda.FiltroListado | backend/controllers/viviendaController.js:19-51 | a non-superadmin with a community always lists their own; anyone else lists the community named in the query, or all |
| ControladorVivienda.GetViviendas | backend/controllers/viviendaController.js:19-51 | the listing holds each dwelling of the filtering community once (all dwellings without a filter), and the reported sum is that community's sum, 0 without a filter |
| ControladorVivienda.Destino | backend/controllers/viviendaController.js:94-99 | a new dwelling goes to the community sent, else to the caller's |
| ControladorVivienda.PlanCrearViviendaCorrecto | backend/controllers/viviendaController.js:85-153 | the corrected create, refusals in order: missing door or coefficient 400, no community 400, another community 403, a door (trimmed, as the filter is) taken in the community 400; an accepted dwelling lies in the target community with a free door number, a positive coefficient that keeps the sum within 100.001, no residents, and `derechoVoto` true unless sent false |
| ControladorVivienda.PlanCrearViviendaTalCual | backend/controllers/viviendaController.js:96-109 | as written: a non-superadmin who omits `comunidad` falls back to their populated community document, whose text never equals an id, so the create is refused 403; every other request is the corrected create |
| ControladorVivienda.AltaSinComunidadRechazada | backend/controllers/viviendaController.js:96-109 | an admin creating a valid dwelling in their own community without naming it is refused 403 as written, while the corrected create does not refuse it so and places the dwelling in the admin's community |
| ControladorVivienda.AltaAcotada | backend/controllers/viviendaController.js:85-153 | an accepted create leaves its community within 100.001, and the sum reported is the old sum plus the new coefficient |
| ControladorVivienda.CrearVivienda | backend/controllers/viviendaController.js:85-153 | the store holds the planned dwelling when the plan and the door index accept it, and nothing changes otherwise; the result is the community's new sum |
| ControladorVivienda.Filtrar | backend/controllers/viviendaController.js:173-176 | a community sent by anyone but a superadmin is dropped; other keys pass unchanged |
| ControladorVivienda.PlanActualizarViviendaCorrecto | backend/controllers/viviendaController.js:158-228 | the corrected update: 403 outside the caller's community, 400 for a door number (trimmed, as the filter is) taken in the community; an accepted dwelling is valid, holds the `habitantes` list the body sends or keeps its residents, changes community only for a superadmin, holds the sent positive coefficient or the old one, and an empty community is refused |
| ControladorVivienda.ActualizarViviendaCoherente | backend/controllers/viviendaController.js:158-228 | an accepted update whose body sends no `habitantes` keeps residence coherent |
| ControladorVivienda.HabitantesSinUsuario | backend/controllers/viviendaController.js:212 | a body sending `habitantes` is written unchecked: a coherent store where user 5 lives nowhere ends with dwelling 1 listing user 5, and residence is no longer coherent |
| ControladorVivienda.ActualizarConservaTope | backend/controllers/viviendaController.js:192-216 | with the ceiling checked in the community the dwelling ends up in, an accepted update keeps every community within 100.001 |
| ControladorVivienda.SumasEjemplo | backend/controllers/viviendaController.js:5-14 | the sums of the two-community example, with and without dwelling 1 |
| ControladorVivienda.MudanzaAceptada | backend/controllers/viviendaController.js:192-212 | as written, a superadmin's move of dwelling 1 into the full community 2 is accepted |
| ControladorVivienda.TrasladoSinTope | backend/controllers/viviendaController.js:200-207 | as written, that move leaves community 2 above 100.001, although both communities were within it; the corrected update refuses it with 400 |
| ControladorVivienda.ActualizarVivienda | backend/controllers/viviendaController.js:158-228 | unknown id 404; otherwise the store holds the planned dwelling when the plan and the door index accept it, and nothing changes otherwise; the result is the new sum of its community |
| ControladorVivienda.PlanAsignarCorrecto | backend/controllers/viviendaController.js:233-289 | unknown dwelling or user 404, outside the caller's community 403, a user of another community 400; otherwise the user names the dwelling and its community, is listed in it, is no longer listed in their previous dwelling, and nothing else changes |
| ControladorVivienda.AsignarCoherente | backend/controllers/viviendaController.js:253-275 | assignment keeps residence coherent: a user names a dwelling exactly when that dwelling lists them |
| ControladorVivienda.AsignarConservaIndices | backend/controllers/viviendaController.js:253-275 | assignment keeps the unique door-number and e-mail indexes |
| ControladorVivienda.AsignarUsuarioVivienda | backend/controllers/viviendaController.js:233-289 | the store holds the planned dwellings and users, or nothing changes on a refusal |
| ControladorVivienda.SinVivienda | backend/controllers/viviendaController.js:310-313 | every user of the dwelling loses it, and no other user changes |
| ControladorVivienda.BorrarCoherente | backend/controllers/viviendaController.js:309-315 | deleting a dwelling and clearing its users keeps residence coherent |
| ControladorVivienda.EliminarVivienda | backend/controllers/viviendaController.js:294-328 | unknown id 404 and outside the caller's community 403, with nothing changed; otherwise the dwelling goes, its users lose it, ballots stay, and the community's remaining sum is reported |
| ControladorUsuario.FiltroSoloConsulta | backend/controllers/usuarioController.js:12-18 | with `req.user` undefined, as the route leaves it, only the query string filters, so an administrator lists every user; a non-superadmin `req.user` with a community would have filtered by it |
| ControladorUsuario.GetUsuarios | backend/controllers/usuarioController.js:7-32 | the listing holds each user of the queried community once, or every user without a query |
| ControladorUsuario.VerUsuario | backend/controllers/usuarioController.js:37-52 | any user is returned by id; an unknown id is 404 |
| ControladorUsuario.RolDeAlta | backend/controllers/usuarioController.js:61-66 | a missing or empty role leaves the default `vecino`; a sent role must be one of the three |
| ControladorUsuario.Listas | backend/controllers/usuarioController.js:92-108 | the follow-up updates change only resident and administrator lists, never a door number, community or key |
| ControladorUsuario.CrearUsuarioRechazos | backend/controllers/usuarioController.js:68-81 | without a `comunidadId` the handler reads `req.user.rol` of an undefined `req.user` and answers 500; an unknown dwelling is 404 |
| ControladorUsuario.PlanCrearUsuarioCorrecto | backend/controllers/usuarioController.js:57-117 | a created user is valid with the hashed password; with a dwelling they take it and its community and are listed in it, without one they keep the sent community and no dwelling changes; an administrator is listed in their community; no other user changes |
| ControladorUsuario.CrearUsuarioCoherente | backend/controllers/usuarioController.js:90-98 | a user created under a fresh id keeps residence coherent |
| ControladorUsuario.CrearUsuarioConservaIndices | backend/controllers/usuarioController.js:90-108 | creating a user keeps the door-number, e-mail and community-key indexes |
| ControladorUsuario.CrearUsuario | backend/controllers/usuarioController.js:57-117 | the store holds the planned collections, or nothing changes on a refusal |
| ControladorUsuario.PasoVivienda | backend/controllers/usuarioController.js:153-201 | the resident-list updates keep every dwelling, door number and community |
| ControladorUsuario.SincronizarRol | backend/controllers/usuarioController.js:210-229 | the administrator-list synchronisation changes no community's key fields |
| ControladorUsuario.ComunidadSincronizada | backend/controllers/usuarioController.js:131-147 | the community the role step reads: the `comunidadId` sent, else a raw `comunidad` key, else the stored one |
| ControladorUsuario.PlanActualizarUsuarioCorrecto | backend/controllers/usuarioController.js:122-239 | unknown user or dwelling 404 with nothing changed; an accepted update keeps the password, reads an empty `comunidadId` as no community and otherwise takes the `comunidadId` or raw `comunidad` sent, writes a raw `vivienda` key unchecked when `viviendaId` is absent (no dwelling list changes then), leaves the user in exactly the dwelling `viviendaId` names with its community, removes them from the previous dwelling, and changes no other user |
| ControladorUsuario.RolSincronizado | backend/controllers/usuarioController.js:139-147 | sending `admin` adds the user to the list of the sent, else stored, community; sending another role removes a current administrator |
| ControladorUsuario.RolOmitido | backend/controllers/usuarioController.js:141-144 | an update that omits `rol` counts as a role change: a current administrator is pulled from the list while keeping the role |
| ControladorUsuario.ActualizarUsuarioCoherente | backend/controllers/usuarioController.js:153-204 | an accepted update keeps residence coherent unless the body sends a raw `vivienda` key without `viviendaId` |
| ControladorUsuario.ViviendaCruda | backend/controllers/usuarioController.js:131 | a raw `vivienda` key sent without `viviendaId` is accepted and names the dwelling for the user, whose resident list is not touched, so residence is no longer coherent |
| ControladorUsuario.FalloTardio | backend/controllers/usuarioController.js:153-208 | the resident lists are written before the user is validated: a refused address answers 400 yet leaves the new dwelling listing a user who does not name it |
| ControladorUsuario.ActualizarUsuarioConservaIndices | backend/controllers/usuarioController.js:153-229 | the update keeps the door-number, e-mail and community-key indexes, whatever its outcome |
| ControladorUsuario.ActualizarUsuario | backend/controllers/usuarioController.js:122-239 | the store holds the collections the plan leaves, including a late failure's partial writes |
| ControladorUsuario.EliminarUsuarioCoherente | backend/controllers/usuarioController.js:252-260 | deleting a user keeps residence coherent, and no dwelling lists them afterwards |
| ControladorUsuario.EliminarUsuario | backend/controllers/usuarioController.js:244-269 | unknown user 404 with nothing changed; otherwise exactly the planned collections |
| ControladorComunidad.Nombrar | backend/controllers/comunidadController.js:103-106 | every listed user takes the community and the role `admin`; ids naming no user match nothing and no other user changes |
| ControladorComunidad.Destituir | backend/controllers/comunidadController.js:176-179 | every listed user loses the community and becomes `vecino`; no other user changes |
| ControladorComunidad.SinComunidad | backend/controllers/comunidadController.js:218-221 | every member loses the community reference; no other user changes |
| ControladorComunidad.VerComunidad | backend/controllers/comunidadController.js:39-74 | the corrected read: a community is returned exactly to a superadmin or a member; unknown id 404, anyone else 403 |
| ControladorComunidad.VerComunidadTalCual | backend/controllers/comunidadController.js:56-61 | as written: the caller's populated community document is compared by its text, so only a superadmin reads a community; unknown id 404, anyone else 403 |
| ControladorComunidad.MiembroSinAcceso | backend/controllers/comunidadController.js:56-61 | a resident reading their own community is refused 403 as written and served by the corrected read |
| ControladorComunidad.PlanCrearComunidadCorrecto | backend/controllers/comunidadController.js:79-116 | a CIF already stored is 400; a created community is valid, with the listed administrators (none by default) and trimmed CIF and code; each listed user becomes its `admin`, and nothing else changes |
| ControladorComunidad.CrearComunidadAdmins | backend/controllers/comunidadController.js:83-107 | creation keeps every administrator list naming `admin`s of that community, when no listed user is listed by another community |
| ControladorComunidad.CrearComunidadListaAntigua | backend/controllers/comunidadController.js:101-107 | an administrator of another community named in a new one stays in the old list, which then names a user of another community |
| ControladorComunidad.CrearComunidad | backend/controllers/comunidadController.js:79-116 | the store holds the planned communities and users, or nothing changes on a refusal |
| ControladorComunidad.AplicarCambios | backend/controllers/comunidadController.js:187-190 | the setters and validators on the sent keys keep a valid community valid; a refusal is 400 |
| ControladorComunidad.PlanActualizarComunidadGuardas | backend/controllers/comunidadController.js:121-148 | the corrected guards: 404 exactly for an unknown id, 403 exactly for a caller neither superadmin nor `admin` of it, 400 for a CIF (trimmed, as the filter is) another community holds; a refusal changes no community, and a non-superadmin never changes a user or the administrator list |
| ControladorComunidad.PuedeActualizarTalCual | backend/controllers/comunidadController.js:129-133 | as written, the permission test passes exactly for a superadmin |
| ControladorComunidad.PlanActualizarComunidadTalCual | backend/controllers/comunidadController.js:121-148 | as written: for a known community every caller but a superadmin is refused 403 with nothing changed; otherwise the corrected update |
| ControladorComunidad.AdminSinPermiso | backend/controllers/comunidadController.js:129-133 | an admin updating their own community is refused 403 as written, and the corrected update does not refuse them so |
| ControladorComunidad.ActualizarComunidadDiferencia | backend/controllers/comunidadController.js:149-185 | a superadmin's list is diffed: requested and unlisted users become its `admin`s, listed and unrequested ones lose it and become `vecino`, the rest are untouched; an accepted update stores the requested list |
| ControladorComunidad.ActualizarComunidadAdmins | backend/controllers/comunidadController.js:149-190 | an accepted update keeps the administrator lists coherent when no requested user is listed by another community |
| ControladorComunidad.DiferenciaCoherente | backend/controllers/comunidadController.js:153-180 | storing the requested list and applying its diff to the users keeps the lists coherent |
| ControladorComunidad.MismaListaCoherente | backend/controllers/comunidadController.js:182-190 | rewriting a community with its own list keeps the lists coherent |
| ControladorComunidad.ActualizarComunidadIndices | backend/controllers/comunidadController.js:121-198 | the update keeps the e-mail index and the CIF and code indexes, whatever its outcome |
| ControladorComunidad.ActualizarComunidad | backend/controllers/comunidadController.js:121-198 | the store holds the users and communities the plan leaves, the user updates of a late refusal included |
| ControladorComunidad.EliminarComunidadCorrecto | backend/controllers/comunidadController.js:204-233 | unknown id 404 (before the role check), non-superadmin 403; afterwards no user names the community, only that reference changed, and the administrator lists stay coherent |
| ControladorComunidad.EliminarComunidad | backend/controllers/comunidadController.js:204-233 | the store holds the planned communities and users, or nothing changes on a refusal |
| ControladorComunidad.PlanUnirseCorrecto | backend/controllers/comunidadController.js:238-282 | a falsy code 400; a code no community holds once trimmed (the filter runs the trim setter) 404; a caller already in a community 400; otherwise the caller joins the community with the trimmed code as `vecino`, and no other user changes |
| ControladorComunidad.UnirseComunidad | backend/controllers/comunidadController.js:238-282 | the store holds the planned users, or nothing changes on a refusal |
| ControladorAuth.PorCodigo | backend/controllers/authController.js:57-63 | a code finds a community exactly when one holds the trimmed code, and then that one |
| ControladorAuth.DocumentoRegistroCorrecto | backend/controllers/authController.js:43-90 | the registration refusals in order: an address already stored once trimmed and lower-cased (the filter runs the setters) 400, a code no community holds once trimmed 400; the document keeps the dwelling and password sent, the dwelling's community wins over the code's, and with neither there is no community |
| ControladorAuth.TrasAlta | backend/controllers/authController.js:92-109 | after the insert only the new user's role and the dwelling's resident list change; no door number or community of a dwelling moves |
| ControladorAuth.RegistroSoloAlta | backend/controllers/authController.js:43-117 | registration adds exactly the new user and changes no other |
| ControladorAuth.PlanRegistroCorrecto | backend/controllers/authController.js:43-117 | a registered user is valid, with the hashed password and the dwelling sent, in that dwelling's community, or else in the community of the code |
| ControladorAuth.RegistroVivienda | backend/controllers/authController.js:103-109 | a registered user with a dwelling is added to its resident list; without one no dwelling changes |
| ControladorAuth.RolTrasAlta | backend/controllers/authController.js:92-101 | with a community or a dwelling the role is `vecino`; with neither it is `superadmin` exactly when no user existed before |
| ControladorAuth.RegistroPrimerUsuario | backend/controllers/authController.js:92-101 | the first user of an empty system who registers without a code or a dwelling becomes `superadmin`, and only they do; anyone with a code or a dwelling is `vecino` |
| ControladorAuth.RegistroMayusculas | backend/controllers/authController.js:47-51 | the existence check normalises the address as the index does: an address stored in another case or with padding is refused as `EmailTaken`, and the index never refuses a registration the check let through |
| ControladorAuth.RegistroCoherente | backend/controllers/authController.js:83-109 | registration under a fresh id keeps residence coherent, and appends the user once to the dwelling's list |
| ControladorAuth.Registrar | backend/controllers/authController.js:43-117 | the store holds the planned dwellings and users, or nothing changes on a refusal |
| ControladorAuth.RegistroIndices | backend/controllers/authController.js:83-109 | registration keeps the door-number and e-mail indexes |
| ControladorAuth.TrasAltaIndices | backend/controllers/authController.js:92-109 | the role and resident-list updates keep both indexes |
| ControladorAuth.PlanPerfilCorrecto | backend/controllers/authController.js:187-227 | exactly a non-empty password shorter than six UTF-16 code units (`password.length`) is 400; an accepted update changes only the caller's name (trimmed) and password (hashed), an empty one leaves that field, and a valid user stays valid |
| ControladorAuth.ActualizarPerfil | backend/controllers/authController.js:187-227 | the store holds the planned users, or nothing changes on a refusal |
| Middleware.Split | backend/middlewares/authMiddleware.js:15 | splitting always yields at least one piece |
| Middleware.SplitSinSeparador | backend/middlewares/authMiddleware.js:15 | no piece contains the separator |
| Middleware.JoinSplit | backend/middlewares/authMiddleware.js:15 | joining the pieces with the separator gives the text back |
| Middleware.SplitUnaPieza | backend/middlewares/authMiddleware.js:15 | a text without the separator is a single piece |
| Middleware.SplitConcat | backend/middlewares/authMiddleware.js:15 | splitting at a separator splits the two sides separately |
| Middleware.TokenCorrecto | backend/middlewares/authMiddleware.js:10-19 | the header `Bearer <t>` yields `t`; a header not starting with `Bearer`, or none, defers to a non-empty cookie; the header `Bearer` alone yields no token even with a cookie |
| Middleware.Poblada | backend/middlewares/authMiddleware.js:31 | the populated community reference is kept exactly when it names a stored community |
| Middleware.Proteger | backend/middlewares/authMiddleware.js:7-41 | no token or a token that does not verify is 401; a verified id naming no user is 404; otherwise the caller is the stored user, with a community reference to an existing community |
| Middleware.Autorizar | backend/middlewares/authMiddleware.js:44-53 | passes exactly when the caller's role is listed; a refusal is 403 |
| Middleware.VerificarComunidad | backend/middlewares/authMiddleware.js:56-80 | a superadmin always passes; the id checked is the route parameter, else the body field; without an id a caller passes exactly when they have a community; with one, exactly when it is theirs; every refusal is 403 |

## Left out

- HTTP plumbing (the server, the route tables, the error middleware, configuration and the database connection) is not modelled. Handlers return `Result` values whose `Failure` holds the status the error middleware sends in production (backend/middlewares/errorMiddleware.js:17-43: a duplicate key or a validation error is 400, any other thrown error 500), and a `Reason` in place of the Spanish message text. In development the same middleware answers 500 for duplicate keys and validation errors; that branch, and the case where neither environment is set, are not modelled.
- Which role may call which route is set in the route tables, which are not part of this model. The handlers are modelled as the routes call them, with the caller passed in as an `Actor`.
- Mongo queries, `populate` and projections are map and set operations on `Almacen.Db`. Result order is any enumeration of the matching set. Projections such as `select: false` on the password and the field lists of `populate` are not modelled.
- JWT signing and verification, cookies and bcrypt are foreign. `verificar` and `hash` are parameters, and login, logout, `getUsuarioActual` and `enviarTokenRespuesta` are not modelled.
- `getComunidades` is not modelled: it is only a projection of the communities collection.
- `getVotaciones` and `getVotacion` are modelled without their `populate` of the creator and the ballots: the response is the set of sessions, or the one session.
- ControladorVotacion.GetInformeParticipacion: an entry names its owner and its ballot's voter by user id, not by the populated name and address. The ballot time is the ballot's `fechaEmision`; the source sends the `createdAt` timestamp, which the model does not keep and which is set at the same insert. The `votacion` header of the response, a copy of the session's own fields, is not modelled.
- Body keys that are not schema paths, and the `_id`, `fechaCreacion` and timestamp paths, are not part of the change records. An id sent in a body or a query that is not a valid ObjectId (a cast error, which the production error middleware answers with 404) is not modelled: ids are naturals.
- ControladorVivienda.ActualizarViviendaCoherente: residence coherence is not promised for an update whose body sends `habitantes`. The source writes that list unchecked (backend/controllers/viviendaController.js:212), as `ControladorVivienda.HabitantesSinUsuario` shows.
- ControladorUsuario.ActualizarUsuarioCoherente: residence coherence is not promised for an update whose body sends a raw `vivienda` key without `viviendaId`. The source writes it unchecked (backend/controllers/usuarioController.js:131), as `ControladorUsuario.ViviendaCruda` shows.
- The random generation of join codes is foreign: `codigo` is a parameter.
- The node-cron registration is not modelled: one call of the sweep is.
- Concurrency is not modelled: every handler runs alone. The read-then-insert of a ballot and the read-sum-then-write of a coefficient can race under parallel requests. The model relies on the ballot index, which `ModeloVoto.Insertar` enforces.
- `toFixed`, `parseFloat` and `Math.round` rounding is not modelled. Percentages, coefficients and sums are exact reals.
- React rendering, the fetch effects, the re-entrancy flags of the session page and `handleIniciarVotacion` are not modelled. The session page's state is the class `EstadoVotacion.Hook`, and only its timer, countdown and cast handling are modelled.
- Session bodies (`ModeloVotacion.Alta`, `ControladorVotacion.Cambios`) carry each date and flag as either the value it casts to or a value that does not cast. How Mongoose and `new Date` parse a given string is not modelled; the two are taken to agree. A falsy date (`""`, `null`) that the handler's check skips is not distinguished from an unsent one.
- The client-side rule that a session needs two non-empty options is not a session invariant: the schema admits any number of options.
- Texto.Lower: lower-cases ASCII capitals and the Spanish capitals Á É Í Ó Ú Ñ Ü only. `toLowerCase` covers all of Unicode, but labels and addresses outside those letters are not modelled.
- A missing text field of a request body (name, CIF, code) is read as `""`. The schema's `required` check refuses both alike.
- ControladorUsuario.EliminarUsuario: administrator lists are not cleaned when a user is deleted, as in the source. `Almacen.AdminsCoherentes` is therefore not claimed after a delete.
- ControladorComunidad.CrearComunidad: keeps the administrator lists coherent only when no listed user is another community's administrator, as `ControladorComunidad.CrearComunidadListaAntigua` shows.
- ControladorComunidad.EliminarComunidad: dwellings and sessions of a deleted community stay, as in the source. Only user references are cleared.
- ControladorVivienda.ActualizarVivienda: uses the corrected coefficient ceiling described under Findings. The code as written is `ControladorVivienda.PlanActualizarViviendaTalCual`.
- ControladorVivienda.CrearVivienda, ControladorComunidad.VerComunidad and ControladorComunidad.ActualizarComunidad: use the corrected comparison of the caller's community described under Findings. The code as written is `ControladorVivienda.PlanCrearViviendaTalCual`, `ControladorComunidad.VerComunidadTalCual` and `ControladorComunidad.PlanActualizarComunidadTalCual`.
- The document and invoice uploads, the seeder and the maintenance scripts are not part of this model.

## Findings

| source | as written | input that shows it | evidently intended | confidence | as-written member | corrected member |
|---|---|---|---|---|---|---|
| backend/controllers/viviendaController.js:200 | the 100.001 ceiling on an update sums the other dwellings of the community the dwelling is in before the update, also when a superadmin's update moves it to another community | community 1 holds only dwelling 1 (coefficient 10) and community 2 only dwelling 2 (coefficient 100); a superadmin moves dwelling 1 to community 2 and resends coefficient 10; the update is accepted and community 2 sums 110 | the ceiling holds in the community the dwelling ends up in, so the update is refused with 400 | not executed; the counterexample is proved about the model of the code as written | ControladorVivienda.TrasladoSinTope | ControladorVivienda.ActualizarConservaTope |
| backend/controllers/comunidadController.js:57-58 | membership is tested by comparing `req.usuario.comunidad.toString()` with the community's id text; the middleware populates that reference, and a document's text is its printed form, never an id | a `vecino` of community 1 asks for community 1 and is refused 403 | a member reads their own community | not executed; the refusal is proved about the model of the code as written | ControladorComunidad.MiembroSinAcceso | ControladorComunidad.VerComunidad |
| backend/controllers/comunidadController.js:129-133 | the same text comparison guards the update, so only a superadmin passes it and the admin branch of the handler cannot be reached | the `admin` of community 1 sends any update of community 1 and is refused 403 | the community's own admin may update it | not executed; the refusal is proved about the model of the code as written | ControladorComunidad.AdminSinPermiso | ControladorComunidad.PlanActualizarComunidadGuardas |
| backend/controllers/viviendaController.js:96-109 | without `comunidad` in the body the handler falls back to the caller's populated community document and compares its id text with the document's text | the `admin` of community 1 creates door "3B" with coefficient 5 and no `comunidad`, and is refused 403 | the dwelling is created in the caller's community | not executed; the refusal is proved about the model of the code as written | ControladorVivienda.AltaSinComunidadRechazada | ControladorVivienda.PlanCrearViviendaCorrecto |
