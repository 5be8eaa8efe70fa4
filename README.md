# Generador de Propuestas Técnicas: a verified model of the core

The system turns a short business need, written in Spanish, into a markdown
technical proposal. It does not call a language model. It lowers the text,
scores each of ten area templates by counting the template keywords found as
substrings, and picks the first template with the highest score ("general"
when none scores). It then assembles the problem, solution, architecture and
risk sections from that template and records every stage in an execution
trace. A second component, the "skills", builds component maps for
microservice and serverless architectures. It also draws a diagram per
architecture kind, configures agent teams and their flows, describes
orchestrations and execution plans, and renders a component summary.

The model is six Dafny modules:

| module | file | models |
|---|---|---|
| `Wrappers` | wrappers.dfy | `Option`, Python's `None` / value |
| `PyStrings` | py_strings.dfy | the `str` operations the core uses: `lower`, `strip`, `title`, `in`, `find`, `split`, `join`, slicing |
| `PyDicts` | py_dicts.dfy | an insertion-ordered `dict` (key order plus a map), `d[k] = v` and the insertion loops |
| `Templates` | templates.dfy | templates.py: the template record, the registry, area detection, lookup, listing |
| `Agent` | agent.dfy | agent.py: execution states, the `Trazabilidad` trace class, keyword extraction, the section builders, the renderer and `GeneradorPropuestas` |
| `Skills` | langchain_skills.dfy | langchain_skills.py: the two enums, `ComponenteArquitectura`, the architecture and orchestration skills and `LangChainSkills` |

Pure code is modelled as functions and lemmas.

- Area detection and the summary renderer loop over their input, so they are
  methods with loop invariants. Each is proved equal to a specification
  function (`IsBestArea`, `Resumen`).
- The component builders fill a dict step by step. They are methods whose
  result is described key by key and value by value.
- The trace is updated in place, so it is a class with a `modifies` clause on
  every operation.
- `GeneradorPropuestas.GenerarPropuesta` is a method. Its contract gives the
  whole result and the whole final trace for both the success path and the
  validation-failure path.

Where the documentation and the code disagree, the model follows the code:

- A successful run records ten trace steps, not nine. Area detection records
  two `detectando_area` steps.
- The per-area component blocks and the extra risks are keyed by lower-case
  identifiers such as "fintech", but they are looked up with the template's
  display name such as "Fintech". No lookup ever hits, so every solution ends
  with the generic component line. Every template, fintech included, gets
  exactly its four base risks (`Agent.AreaNoEsClave`).
- On a validation failure the trace is always attached, whatever
  `incluir_trazabilidad` says.
- Keyword matching is raw substring containment. For example, the
  telecommunications keyword "red" matches inside "reducir"
  (`Templates.RawSubstringMatch`).

## Model

| member | source | states |
|---|---|---|
| Templates.ListarAreas | templates.py:357-359 | the listing has one entry per registered template: the identifier of the i-th template, in registration order |
| Templates.TemplatesValido | templates.py:24-328 | the registry has the ten distinct identifiers fintech … combustibles in this order, "general" is not one of them, and the first entry is the fintech template |
| Templates.LookupFrom | templates.py:354 | a dict lookup: no result exactly when no entry (from the given position on) has the identifier, otherwise the template of an entry that has it |
| Templates.ObtenerTemplate | templates.py:352-354 | a registered identifier gives its own template, and any other string gives the template registered under "fintech"; the result is always a registered template |
| Templates.ObtenerTemplatePorDefecto | templates.py:354 | over the system's registry, "general" and every unknown identifier give the Fintech template |
| Templates.Score | templates.py:342-344 | the number of matching keywords never exceeds the number of keywords |
| Templates.ScoreZeroIff | templates.py:342-344 | a template scores 0 exactly when none of its keywords occurs in the text |
| Templates.ScoreMonotone | templates.py:342-344 | adding text before or after the input never lowers a score |
| Templates.DetectStep | templates.py:341-347 | one turn of the detection loop keeps its invariant: the best score so far, and the first template that reached it (a tie does not replace it) |
| Templates.DetectDoneBest | templates.py:341-349 | when the loop ends, its answer is the right answer of detection and is "general" or a registered identifier |
| Templates.DetectarArea | templates.py:331-349 | the result is "general" when every template scores 0 on the lowered input, otherwise the identifier of the first template with the highest score |
| Templates.WinnerUnique | templates.py:345-347 | two winning templates for one input are the same template |
| Templates.BestAreaUnique | templates.py:331-349 | over a valid registry, each input has exactly one right detection answer |
| Templates.NoKeywordMeansGeneral | templates.py:338-349 | when no keyword of any template occurs in the lowered input, detection answers "general" |
| Templates.AreaScoreMonotone | templates.py:341-344 | adding text around the input never lowers any template's score |
| Templates.RawSubstringMatch | templates.py:238-247 | the telecommunications keywords include "red", which is found inside "reducir costos" |
| Agent.WordEndsAtRunEnd | agent.py:138 | a whole word ends where the run of word characters from its start ends |
| Agent.PosicionesCoincidencia | agent.py:138 | the scan lists only positions where a whole word fitting the pattern starts, in strictly increasing order, so none twice |
| Agent.PosicionesCompletas | agent.py:138 | every position where a whole word fitting the pattern starts is listed |
| Agent.MatchesFrom | agent.py:138 | the matches are as many as the match positions, and the k-th match is the whole word at the k-th position, which fits the pattern: text order, each occurrence once |
| Agent.MatchesFromComplete | agent.py:138 | every whole word of the text that fits the pattern is matched, at the index of its position in the list of match positions |
| Agent.FiltrarVacias | agent.py:139 | a word that is not a stop word is kept exactly as many times as it occurs, a stop word never, and the kept words keep their order |
| Agent.ExtraerPalabrasClaveSound | agent.py:110-139 | every keyword is a whole word of the lowered need, fits the pattern and is not a stop word; the keywords are a subsequence of the matches, and each non-stop word occurs among them as often as it is matched |
| Agent.ExtraerPalabrasClaveComplete | agent.py:110-139 | every whole word of the lowered need that fits the pattern and is not a stop word is a keyword, as many times as it is matched |
| Agent.PalabrasListadasPrimeras | agent.py:150 | the problem section lists the first min(10, n) keywords |
| Agent.IdentificarProblemaForma | agent.py:141-152 | the problem starts with the template's base problem, holds the labelled need two characters later, and ends with the keyword list |
| Agent.ListaPalabrasRoundTrip | agent.py:150 | splitting the listed keywords on ", " gives the listed keywords back |
| Agent.ComponentesDe | agent.py:174 | the component block of an area in the table, and the generic line for any other area |
| Agent.GenerarSolucionForma | agent.py:154-176 | the solution starts with the template's base solution and the components heading, and ends with the area's block or the generic line |
| Agent.DisenarArquitectura | agent.py:178-180 | the architecture section is the template's base architecture, whatever the need |
| Agent.AnalizarRiesgos | agent.py:182-203 | the risks are the base risks followed by the area's extra risks when the table has the area, and the base risks alone otherwise |
| Agent.TablasPorIdentificador | agent.py:160-199 | the component table is keyed by the ten identifiers and the extra-risk table by three of them |
| Agent.ClavesMinusculas | agent.py:160-199 | every key of both tables starts with a lower-case letter |
| Agent.TemplatesNombresVisibles | templates.py:24-328 | every template's area is a display name starting with a capital letter, and every template has four base risks |
| Agent.AreaNoEsClave | agent.py:174-201 | for every template of such a registry, both lookups miss: the generic component line and exactly the four base risks |
| Agent.LineaRiesgoSinSeparador | agent.py:379 | a risk without " - " renders as the bold risk and an empty mitigation |
| Agent.FirstSeparator | agent.py:379 | in name + " - " + rest, the first separator is right after the name exactly when name + " -" holds no separator (hyphenated names such as "last-mile" included) |
| Agent.LineaRiesgoFormato | agent.py:379 | "name - mitigation", for any name whose first separator is the one after it and a mitigation without a separator, renders as the bold name followed by the mitigation |
| Agent.LineaRiesgoDescarta | agent.py:379 | with a second separator right after the mitigation, everything after it is dropped from the rendered line |
| Agent.LineaRiesgoUnaLinea | agent.py:379 | a risk without a newline renders as a single line |
| Agent.UnaLineaPorRiesgo | agent.py:379 | splitting the risk section on newlines gives one rendered line per risk, in order |
| Agent.SeccionesEnOrden | agent.py:350-384 | in a concatenation of seven pieces whose first five are non-empty, pieces 1, 2, 3 and 5 occur at strictly increasing positions |
| Agent.FormatearPropuestaTitulo | agent.py:350-352 | the proposal starts with the title and the template's area |
| Agent.FormatearPropuestaPie | agent.py:381-384 | the proposal ends with the closing note |
| Agent.FormatearPropuestaSecciones | agent.py:341-384 | sections 1 to 4 appear in order, each heading immediately followed by the problem, the solution, the architecture and the rendered risks |
| Agent.Dict1 | agent.py:322 | a one-entry dict is valid, with that key only |
| Agent.DuracionMs | agent.py:72 | the elapsed milliseconds are the elapsed time truncated toward zero, for forward and backward clocks alike |
| Agent.Trazabilidad.constructor | agent.py:31-39 | a new trace has no steps, no errors, no start or end, and duration 0 |
| Agent.Trazabilidad.AgregarPaso | agent.py:41-52 | appends exactly one step, with the state's value, the detail and the metadata (empty when none is given); nothing else changes |
| Agent.Trazabilidad.AgregarError | agent.py:54-63 | appends exactly one error record; nothing else changes |
| Agent.Trazabilidad.Iniciar | agent.py:65-67 | sets the start; nothing else changes |
| Agent.Trazabilidad.Finalizar | agent.py:69-73 | sets the end, and sets the duration only when a start was recorded |
| Agent.Trazabilidad.ObtenerResumen | agent.py:75-84 | the step and error counts, the start, end and duration, and success exactly when there are no errors |
| Agent.PasosExitoDiez | agent.py:221-300 | a successful run records ten steps, in the order of the stages, the last carrying the duration |
| Agent.Salidas | agent.py:305-311 | the outputs dict holds the five keys in the order the source writes them, each with its section text or list |
| Agent.Entradas | agent.py:304 | the inputs dict holds "necesidad" and "area_especifica" in this order, the latter null when no area was given |
| Agent.GeneradorPropuestas.constructor | agent.py:106-108 | the generator holds the system's registry and its identifier list |
| Agent.GeneradorPropuestas.Detectar | agent.py:239-258 | a forced area is used when it is non-empty and registered, otherwise the detected best area; the trace gains the two detection steps |
| Agent.GeneradorPropuestas.Componer | agent.py:260-291 | the outputs and the proposal are those of the chosen template; the trace gains the five composition steps |
| Agent.GeneradorPropuestas.Completar | agent.py:235-314 | a valid need gives a successful result with the chosen area's outputs and proposal; the trace is attached exactly when asked and holds the ten success steps |
| Agent.GeneradorPropuestas.GenerarPropuesta | agent.py:205-327 | success exactly when the stripped need has at least 10 characters; on failure the empty result, the error message and the trace with one step and one ValueError; on success as in Completar |
| Skills.TamanoMicroservicios | langchain_skills.py:46-102 | a microservice map has 5 + (number of distinct service names) components |
| Skills.CapasFinalesMicroservicios | langchain_skills.py:78-101 | the three final insertions append the database, messaging and observability keys after the service keys |
| Skills.ValoresFinalesMicroservicios | langchain_skills.py:53-101 | after the final insertions every key holds its component: the fixed ones and one per service |
| Skills.GenerarArquitecturaMicroservicios | langchain_skills.py:46-102 | the keys are the gateway, the mesh, one "servicio_" key per distinct service in first-seen order, then the three fixed layers; each value is its component |
| Skills.TamanoServerless | langchain_skills.py:104-152 | a serverless map has 4 + (number of distinct function names) components |
| Skills.CapaFinalServerless | langchain_skills.py:144-151 | the final insertion appends the CDN key after the function keys |
| Skills.ValorFinalServerless | langchain_skills.py:111-151 | after the final insertion every key holds its component |
| Skills.GenerarArquitecturaServerless | langchain_skills.py:104-152 | the keys are the gateway, storage, queue, one "funcion_" key per distinct function, then the CDN; each value is its component |
| Skills.GenerarDiagramaArquitectura | langchain_skills.py:154-260 | the "not available" text exactly for the monolith and hybrid kinds, and the kind's own diagram otherwise |
| Skills.DeterminarFlujo | langchain_skills.py:310-320 | the four-agent flow of fintech, app_moviles and blockchain, the five-agent default for any other area; every flow starts with analyst and architect |
| Skills.FlujoDeAgentesBase | langchain_skills.py:274-320 | every flow names only base agents, none twice |
| Skills.CrearAgentesEspecializados | langchain_skills.py:267-308 | one configuration per distinct area, in first-seen order, each with the base agents and the area's flow |
| Skills.CrearOrquestacionSecuencial | langchain_skills.py:322-332 | a sequential orchestration over the given agents and input |
| Skills.CrearOrquestacionParalela | langchain_skills.py:334-344 | a parallel orchestration over the given agents and input |
| Skills.CrearOrquestacionJerarquica | langchain_skills.py:346-357 | a hierarchical orchestration with the given manager, workers and input |
| Skills.GenerarPlanEjecucion | langchain_skills.py:359-420 | no plan exactly for consumer-producer, and the pattern's table plan otherwise |
| Skills.PlanSecuencialOrdenado | langchain_skills.py:365-386 | the sequential plan has four single-agent steps numbered 1 to 4 that follow the default flow's first four agents |
| Skills.PlanesNumerados | langchain_skills.py:359-420 | every plan has steps, and every numbered step carries its position |
| Skills.LineaTecnologias | langchain_skills.py:464-465 | the technologies line is absent exactly when there are no technologies, and otherwise a labelled line |
| Skills.LineaResponsabilidad | langchain_skills.py:466-467 | the responsibility line is absent exactly when the responsibility is empty, and otherwise a labelled line |
| Skills.Bloques | langchain_skills.py:460-468 | one block per component, in key order |
| Skills.BloqueEncabezado | langchain_skills.py:461 | each block starts with the component's name as a heading |
| Skills.ResumenContieneBloque | langchain_skills.py:455-470 | the summary starts with its header and holds each component's block, heading first, at that component's position |
| Skills.ResumenEnOrden | langchain_skills.py:460-468 | blocks appear in key order without overlapping |
| Skills.ResumenVacio | langchain_skills.py:457-470 | an empty map gives just the header |
| Skills.ResumenHastaSiguiente | langchain_skills.py:460-468 | one turn of the summary loop adds the next component's block |
| Skills.ResumenHastaFinal | langchain_skills.py:460-470 | after the last component, the accumulated text is the summary |
| Skills.GenerarResumen | langchain_skills.py:455-470 | the loop builds exactly the summary of the map |
| Skills.GenerarArquitecturaCompleta | langchain_skills.py:430-453 | the kind's value, the microservice or serverless map (empty for other kinds), the kind's diagram, and the summary of that map |
| Skills.SoloCapasFijas | langchain_skills.py:478-480 | without services only the fixed layers remain: five for microservices, four for serverless |
| Skills.CrearAgenteHibrido | langchain_skills.py:472-488 | the need; the complete architecture built with no services and the need as context: the kind's value, only the fixed components with their values, the kind's diagram and the summary of those components; and the pattern's plan |
| PyDicts.Put | langchain_skills.py:53 | assignment keeps a present key's position, appends a new key, and keeps the dict valid |
| PyDicts.PutEach | langchain_skills.py:69-76 | the insertion loop appends the prefixed keys in first-seen order, keeps older entries, and gives each new key the value of its name |
| PyDicts.Dedup | langchain_skills.py:302-306 | keys assigned in a loop: no repetition, the same elements, never longer |
| PyDicts.DedupOrden | langchain_skills.py:302-306 | keys keep first-seen order: wherever a later key occurs in the input, every earlier key has already occurred |
| PyDicts.PrefixedDistinctCount | langchain_skills.py:69-70 | prefixed keys are as many as the distinct names |
| PyStrings.Lower | templates.py:336 | lowering keeps the length and lowers each character |
| PyStrings.Strip | agent.py:232 | the result is the slice of the need between its leading and trailing whitespace, neither starts nor ends with whitespace, and is empty exactly for an all-whitespace need |
| PyStrings.Title | langchain_skills.py:71 | never shorter than the input; without ß, ÿ, µ only the case of letters changes; a word-initial lower-case letter becomes upper-case |
| PyStrings.TitleEjemplos | langchain_skills.py:137 | ß inside a word stays and opening a word becomes "Ss"; a letter after º is lowered, since º is cased |
| PyStrings.Find | templates.py:343 | the first position where the pattern occurs, or none when it never occurs |
| PyStrings.Split | agent.py:379 | one piece when the separator is absent, otherwise at least two, the first being the text before the first separator |
| PyStrings.JoinSplit | agent.py:379 | joining the pieces of a split gives the text back |
| PyStrings.SplitJoin | agent.py:150 | splitting a join of pieces that do not hold the separator's first character gives the pieces back |
| PyStrings.Take | agent.py:150 | a slice [:n] is the prefix of length min(n, length) |

## Left out

- app.py, app_streamlit.py and prompts.py are the user interface and prompt text. They are not part of this model.
- Timestamps: the step and error timestamps are left out. The two clock readings of a run come in as a `Reloj` parameter, and the start and end are kept as numbers rather than ISO-8601 text.
- Agent.DuracionMs: the source converts through floating-point seconds. The model truncates an exact count of microseconds, so rounding in the float conversion is not modelled.
- The template prose (`problema_base`, `solucion_base`, `arquitectura_base`), the risk texts and the three ASCII diagrams are long literal texts. They are replaced by short placeholder strings. Component descriptions, identifiers, keywords, technologies, table keys, labels, headings and messages are kept verbatim.
- Lower-casing and title-casing are exact on the Latin-1 range only (title-casing takes ß to "Ss" and ÿ, µ to their capitals). Case mappings of other Unicode characters are not modelled.
- ExtraerPalabrasClave, IsWordChar: `\w` and `\b` are modelled on the Latin-1 range only. A letter outside it, such as 'ł', counts as a word boundary in the model but as a word character in Python, so for "ałabcd" the model extracts "abcd" where Python finds nothing.
- The `except Exception` branch of `generar_propuesta` is left out. Nothing in the modelled pipeline raises anything other than the length check's `ValueError`.
- The keyword lists that `_generar_solucion` and `_analizar_riesgos` compute and never use, and the `contexto` parameter, which the component builders and the diagram lookup receive but never read, do not affect any result.
- `crear_agente`, `listar_areas_disponibles` and `crear_skills` are one-line factories. They are covered by `GeneradorPropuestas.constructor`, `ListarAreas` and the module-level skill members.
- `SkillArquitectura`, `SkillOrquestacion` and `LangChainSkills` hold no state. Their methods are module-level members of `Skills`.
- Skills.GenerarPlanEjecucion: the source returns an empty dict for consumer-producer, and the model returns no plan.
- The dicts of the source hold values of mixed types. The model gives each dict its own value type: components, agent configurations, and trace metadata.
