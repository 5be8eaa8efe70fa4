/**
 * The architecture and orchestration skill tables: component maps built by
 * fixed insertions plus one entry per requested service or function,
 * lookups with defaults, and the component summary renderer.
 *
 * The skill classes hold no state, so their methods are module members here.
 */
module Skills {
  import opened Wrappers
  import opened PyStrings
  import opened PyDicts

  // ---------------------------------------------------------------------------
  // Enumerations
  // ---------------------------------------------------------------------------

  /** The architecture kinds. */
  datatype TipoArquitectura = Microservicios | Serverless | EventDriven | Monolito | Hibrida {
    /** The enum's string value. */
    function Valor(): string {
      match this
      case Microservicios => "microservicios"
      case Serverless => "serverless"
      case EventDriven => "event_driven"
      case Monolito => "monolito"
      case Hibrida => "hibrida"
    }
  }

  /** The agent orchestration patterns. */
  datatype PatronOrquestacion = Secuencial | Paralelo | Jerarquico | ConsumerProducer {
    /** The enum's string value. */
    function Valor(): string {
      match this
      case Secuencial => "secuencial"
      case Paralelo => "paralelo"
      case Jerarquico => "jerarquico"
      case ConsumerProducer => "consumer_producer"
    }
  }


  // ---------------------------------------------------------------------------
  // Architecture components
  // ---------------------------------------------------------------------------

  /** One component of an architecture. */
  datatype ComponenteArquitectura = ComponenteArquitectura(
    nombre: string,
    tipo: string,
    descripcion: string,
    tecnologias: seq<string>,
    dependencias: seq<string>,
    responsabilidad: string
  )

  /** A component map, in insertion order. */
  type Componentes = Dict<string, ComponenteArquitectura>

  const API_GATEWAY: ComponenteArquitectura := ComponenteArquitectura(
    "API Gateway", "gateway", "Punto de entrada único para todas las APIs",
    ["Kong", "AWS API Gateway", "Nginx"], [], "Routing, autenticación, rate limiting")

  const SERVICE_MESH: ComponenteArquitectura := ComponenteArquitectura(
    "Service Mesh", "infraestructura", "Comunicación entre servicios",
    ["Istio", "Linkerd", "Envoy"], [], "mTLS, observabilidad, balanceo")

  const BASE_DATOS: ComponenteArquitectura := ComponenteArquitectura(
    "Capa de Datos", "persistencia", "Almacenamiento de datos",
    ["PostgreSQL", "MongoDB", "Redis"], [], "Persistencia y caché")

  const MENSAJERIA: ComponenteArquitectura := ComponenteArquitectura(
    "Sistema de Mensajería", "async", "Comunicación asíncrona",
    ["Kafka", "RabbitMQ", "AWS SQS"], [], "Eventos, colas, procesamiento async")

  const OBSERVABILIDAD: ComponenteArquitectura := ComponenteArquitectura(
    "Observabilidad", "infraestructura", "Monitoreo y logging",
    ["Prometheus", "Grafana", "ELK", "Jaeger"], [], "Métricas, logs, tracing")

  /** The component generated for one requested service. */
  function ComponenteServicio(servicio: string): ComponenteArquitectura {
    ComponenteArquitectura(
      "Servicio " + Title(servicio), "business", "Lógica de negocio para " + servicio,
      ["Python/FastAPI", "Node.js/Express", "Go"], [], "Gestión de " + servicio)
  }

  const HTTP_GATEWAY: ComponenteArquitectura := ComponenteArquitectura(
    "HTTP Gateway", "gateway", "Trigger HTTP para funciones",
    ["AWS API Gateway", "Cloud Functions", "Azure Functions"], [], "Enrutamiento HTTP")

  const STORAGE: ComponenteArquitectura := ComponenteArquitectura(
    "Storage Layer", "persistencia", "Almacenamiento de archivos y datos",
    ["S3", "Azure Blob", "DynamoDB"], [], "Persistencia")

  const QUEUE: ComponenteArquitectura := ComponenteArquitectura(
    "Message Queue", "async", "Colas para procesamiento asíncrono",
    ["AWS SQS", "Azure Queue", "Google Pub/Sub"], [], "Procesamiento async")

  const CDN: ComponenteArquitectura := ComponenteArquitectura(
    "CDN", "infraestructura", "Distribución de contenido estático",
    ["CloudFront", "Azure CDN", "Cloud CDN"], [], "Entrega rápida de contenido")

  /** The component generated for one requested function. */
  function ComponenteFuncion(funcion: string): ComponenteArquitectura {
    ComponenteArquitectura(
      "Función " + Title(funcion), "compute", "Función serverless para " + funcion,
      ["AWS Lambda", "Azure Functions", "Google Cloud Functions"], [], "Ejecutar lógica de " + funcion)
  }

  /**
   * A key that differs from `p` at position `j` (or ends before it) does not
   * start with `p`, is none of the keys `p + n`, and so is not among them.
   */
  lemma FueraDePrefijo(k: string, p: string, names: seq<string>, j: nat)
    requires j < |p| && (j >= |k| || k[j] != p[j])
    ensures !HasPrefix(k, p)
    ensures forall i :: 0 <= i < |names| ==> k != p + names[i]
    ensures k !in Dedup(Prefixed(p, names))
  {
    if |p| <= |k| {
      assert k[..|p|][j] == k[j];
    }
    forall i | 0 <= i < |names|
      ensures k != p + names[i]
    {
      assert (p + names[i])[j] == p[j];
    }
  }

  /** The keys of a microservices architecture: five fixed layers around one key per distinct service. */
  function ClavesMicroservicios(servicios: seq<string>): seq<string> {
    ["api_gateway", "service_mesh"] + Dedup(Prefixed("servicio_", servicios))
    + ["base_datos", "mensajeria", "observabilidad"]
  }

  /** There are five fixed keys and one per distinct service. */
  lemma TamanoMicroservicios(servicios: seq<string>)
    ensures |ClavesMicroservicios(servicios)| == 5 + |set s | s in servicios|
  {
    PrefixedDistinctCount("servicio_", servicios);
  }

  /** The components a microservices architecture maps its keys to. */
  ghost predicate ValoresMicroservicios(c: Componentes, servicios: seq<string>) {
    && "api_gateway" in c.vals && c.vals["api_gateway"] == API_GATEWAY
    && "service_mesh" in c.vals && c.vals["service_mesh"] == SERVICE_MESH
    && "base_datos" in c.vals && c.vals["base_datos"] == BASE_DATOS
    && "mensajeria" in c.vals && c.vals["mensajeria"] == MENSAJERIA
    && "observabilidad" in c.vals && c.vals["observabilidad"] == OBSERVABILIDAD
    && ValoresServicios(c, "servicio_", servicios, ComponenteServicio)
  }

  /** Each prefixed name maps to the component built from the name. */
  ghost predicate ValoresServicios(c: Componentes, p: string, names: seq<string>,
                                   componente: string -> ComponenteArquitectura) {
    forall i :: 0 <= i < |names| ==> p + names[i] in c.vals && c.vals[p + names[i]] == componente(names[i])
  }

  /** The last three layers of a microservices architecture go after the services. */
  lemma CapasFinalesMicroservicios(medio: Componentes, servicios: seq<string>)
    requires medio.Valid()
    requires medio.keys == ["api_gateway", "service_mesh"] + Dedup(Prefixed("servicio_", servicios))
    ensures var c := Put(Put(Put(medio, "base_datos", BASE_DATOS), "mensajeria", MENSAJERIA),
                         "observabilidad", OBSERVABILIDAD);
      c.keys == ClavesMicroservicios(servicios)
  {
    ClavesDistintas();
    FueraDePrefijo("base_datos", "servicio_", servicios, 0);
    FueraDePrefijo("mensajeria", "servicio_", servicios, 0);
    FueraDePrefijo("observabilidad", "servicio_", servicios, 0);
    var c1 := Put(medio, "base_datos", BASE_DATOS);
    var c2 := Put(c1, "mensajeria", MENSAJERIA);
    var c3 := Put(c2, "observabilidad", OBSERVABILIDAD);
    assert c1.keys == medio.keys + ["base_datos"];
    assert c2.keys == c1.keys + ["mensajeria"];
    assert c3.keys == c2.keys + ["observabilidad"];
    AnexarTres(medio.keys, "base_datos", "mensajeria", "observabilidad");
  }

  /** The last three layers of a microservices architecture leave the earlier entries alone. */
  lemma ValoresFinalesMicroservicios(medio: Componentes, servicios: seq<string>)
    requires medio.Valid()
    requires "api_gateway" in medio.vals && medio.vals["api_gateway"] == API_GATEWAY
    requires "service_mesh" in medio.vals && medio.vals["service_mesh"] == SERVICE_MESH
    requires ValoresServicios(medio, "servicio_", servicios, ComponenteServicio)
    ensures ValoresMicroservicios(Put(Put(Put(medio, "base_datos", BASE_DATOS), "mensajeria", MENSAJERIA),
                                      "observabilidad", OBSERVABILIDAD), servicios)
  {
    ClavesDistintas();
    FueraDePrefijo("base_datos", "servicio_", servicios, 0);
    FueraDePrefijo("mensajeria", "servicio_", servicios, 0);
    FueraDePrefijo("observabilidad", "servicio_", servicios, 0);
  }

  /** Literal keys that are told apart by their length or first letters. */
  lemma ClavesDistintas()
    ensures "base_datos" != "mensajeria" && "base_datos" != "observabilidad" && "mensajeria" != "observabilidad"
    ensures "api_gateway" !in ["base_datos", "mensajeria", "observabilidad"]
    ensures "service_mesh" !in ["base_datos", "mensajeria", "observabilidad"]
    ensures "base_datos" !in ["api_gateway", "service_mesh"]
    ensures "mensajeria" !in ["api_gateway", "service_mesh"]
    ensures "observabilidad" !in ["api_gateway", "service_mesh"]
  {
  }

  /**
   * `generar_arquitectura_microservicios`: the gateway and the mesh, then one
   * `servicio_<s>` entry per distinct service in first-seen order, then the
   * data, messaging and observability layers; five entries plus one per
   * distinct service.
   */
  method GenerarArquitecturaMicroservicios(contexto: string, servicios: seq<string>) returns (c: Componentes)
    ensures c.Valid()
    ensures c.keys == ClavesMicroservicios(servicios)
    ensures c.Len() == 5 + |set s | s in servicios|
    ensures ValoresMicroservicios(c, servicios)
  {
    c := Empty();
    c := Put(c, "api_gateway", API_GATEWAY);
    c := Put(c, "service_mesh", SERVICE_MESH);
    ghost var inicial := c;
    assert c.keys == ["api_gateway", "service_mesh"];
    assert c.vals["api_gateway"] == API_GATEWAY && c.vals["service_mesh"] == SERVICE_MESH;
    FueraDePrefijo("api_gateway", "servicio_", servicios, 0);
    FueraDePrefijo("service_mesh", "servicio_", servicios, 6);
    c := PutEach(c, "servicio_", servicios, ComponenteServicio);
    assert c.vals["api_gateway"] == inicial.vals["api_gateway"];
    assert c.vals["service_mesh"] == inicial.vals["service_mesh"];
    CapasFinalesMicroservicios(c, servicios);
    ValoresFinalesMicroservicios(c, servicios);
    c := Put(c, "base_datos", BASE_DATOS);
    c := Put(c, "mensajeria", MENSAJERIA);
    c := Put(c, "observabilidad", OBSERVABILIDAD);
    TamanoMicroservicios(servicios);
  }

  /** The keys of a serverless architecture: four fixed layers around one key per distinct function. */
  function ClavesServerless(funciones: seq<string>): seq<string> {
    ["http_gateway", "storage", "queue"] + Dedup(Prefixed("funcion_", funciones)) + ["cdn"]
  }

  /** The components a serverless architecture maps its keys to. */
  ghost predicate ValoresServerless(c: Componentes, funciones: seq<string>) {
    && "http_gateway" in c.vals && c.vals["http_gateway"] == HTTP_GATEWAY
    && "storage" in c.vals && c.vals["storage"] == STORAGE
    && "queue" in c.vals && c.vals["queue"] == QUEUE
    && "cdn" in c.vals && c.vals["cdn"] == CDN
    && ValoresServicios(c, "funcion_", funciones, ComponenteFuncion)
  }

  /** There are four fixed keys and one per distinct function. */
  lemma TamanoServerless(funciones: seq<string>)
    ensures |ClavesServerless(funciones)| == 4 + |set f | f in funciones|
  {
    PrefixedDistinctCount("funcion_", funciones);
  }

  /** The CDN layer of a serverless architecture goes after the functions. */
  lemma CapaFinalServerless(medio: Componentes, funciones: seq<string>)
    requires medio.Valid()
    requires medio.keys == ["http_gateway", "storage", "queue"] + Dedup(Prefixed("funcion_", funciones))
    ensures Put(medio, "cdn", CDN).keys == ClavesServerless(funciones)
  {
    FueraDePrefijo("cdn", "funcion_", funciones, 0);
    assert "cdn" !in ["http_gateway", "storage", "queue"];
  }

  /** The CDN layer of a serverless architecture leaves the earlier entries alone. */
  lemma ValorFinalServerless(medio: Componentes, funciones: seq<string>)
    requires medio.Valid()
    requires "http_gateway" in medio.vals && medio.vals["http_gateway"] == HTTP_GATEWAY
    requires "storage" in medio.vals && medio.vals["storage"] == STORAGE
    requires "queue" in medio.vals && medio.vals["queue"] == QUEUE
    requires ValoresServicios(medio, "funcion_", funciones, ComponenteFuncion)
    ensures ValoresServerless(Put(medio, "cdn", CDN), funciones)
  {
    FueraDePrefijo("cdn", "funcion_", funciones, 0);
  }

  /**
   * `generar_arquitectura_serverless`: the HTTP gateway, storage and queue,
   * then one `funcion_<f>` entry per distinct function in first-seen order,
   * then the CDN; four entries plus one per distinct function.
   */
  method GenerarArquitecturaServerless(contexto: string, funciones: seq<string>) returns (c: Componentes)
    ensures c.Valid()
    ensures c.keys == ClavesServerless(funciones)
    ensures c.Len() == 4 + |set f | f in funciones|
    ensures ValoresServerless(c, funciones)
  {
    c := Empty();
    c := Put(c, "http_gateway", HTTP_GATEWAY);
    c := Put(c, "storage", STORAGE);
    c := Put(c, "queue", QUEUE);
    ghost var inicial := c;
    assert c.keys == ["http_gateway", "storage", "queue"];
    assert c.vals["http_gateway"] == HTTP_GATEWAY && c.vals["storage"] == STORAGE && c.vals["queue"] == QUEUE;
    FueraDePrefijo("http_gateway", "funcion_", funciones, 0);
    FueraDePrefijo("storage", "funcion_", funciones, 0);
    FueraDePrefijo("queue", "funcion_", funciones, 0);
    c := PutEach(c, "funcion_", funciones, ComponenteFuncion);
    assert c.vals["http_gateway"] == inicial.vals["http_gateway"];
    assert c.vals["storage"] == inicial.vals["storage"];
    assert c.vals["queue"] == inicial.vals["queue"];
    CapaFinalServerless(c, funciones);
    ValorFinalServerless(c, funciones);
    c := Put(c, "cdn", CDN);
    TamanoServerless(funciones);
  }

  /** The diagram returned for a kind without one. */
  const DIAGRAMA_NO_DISPONIBLE: string := "Diagrama no disponible"

  /** The ASCII diagrams, kept as opaque constants. */
  const DIAGRAMA_MICROSERVICIOS: string := "<diagrama de microservicios>"
  const DIAGRAMA_SERVERLESS: string := "<diagrama serverless>"
  const DIAGRAMA_EVENT_DRIVEN: string := "<diagrama event driven>"

  /** The diagram table, keyed by architecture kind. */
  const DIAGRAMAS: map<TipoArquitectura, string> := map[
    Microservicios := DIAGRAMA_MICROSERVICIOS,
    Serverless := DIAGRAMA_SERVERLESS,
    EventDriven := DIAGRAMA_EVENT_DRIVEN
  ]

  /** `generar_diagrama_arquitectura`: the table's diagram for the kind, or the fallback message. */
  function GenerarDiagramaArquitectura(tipo: TipoArquitectura, contexto: string): (d: string)
    ensures d == DIAGRAMA_NO_DISPONIBLE <==> tipo.Monolito? || tipo.Hibrida?
    ensures tipo == Microservicios ==> d == DIAGRAMA_MICROSERVICIOS
    ensures tipo == Serverless ==> d == DIAGRAMA_SERVERLESS
    ensures tipo == EventDriven ==> d == DIAGRAMA_EVENT_DRIVEN
  {
    if tipo in DIAGRAMAS then DIAGRAMAS[tipo] else DIAGRAMA_NO_DISPONIBLE
  }

  // ---------------------------------------------------------------------------
  // Orchestration
  // ---------------------------------------------------------------------------

  /** The role, responsibility and prompt of one base agent. */
  datatype Agente = Agente(rol: string, responsabilidad: string, promptBase: string)

  /** The five base agents, in their order. */
  const AGENTES_BASE: Dict<string, Agente> := Dict(
    ["analista", "arquitecto", "desarrollador", "qa", "devops"],
    map[
      "analista" := Agente("Analista de Requisitos", "Analizar y documentar necesidades",
                           "Eres un analista de negocio experto..."),
      "arquitecto" := Agente("Arquitecto de Soluciones", "Diseñar arquitectura técnica",
                             "Eres un arquitecto de software senior..."),
      "desarrollador" := Agente("Desarrollador Full Stack", "Implementar código",
                                "Eres un desarrollador experimentado..."),
      "qa" := Agente("Ingeniero de Calidad", "Diseñar pruebas y validación", "Eres un experto en testing..."),
      "devops" := Agente("Ingeniero DevOps", "Infraestructura y despliegue",
                         "Eres un ingeniero DevOps experimentado...")
    ])

  /** The flow table, keyed by area identifier, with the `"default"` entry. */
  const FLUJOS: map<string, seq<string>> := map[
    "fintech" := ["analista", "arquitecto", "devops", "qa"],
    "app_moviles" := ["analista", "arquitecto", "desarrollador", "qa"],
    "blockchain" := ["analista", "arquitecto", "desarrollador", "devops"],
    "default" := ["analista", "arquitecto", "desarrollador", "qa", "devops"]
  ]

  /** The areas with a flow of their own. */
  predicate TieneFlujoPropio(area: string) {
    area == "fintech" || area == "app_moviles" || area == "blockchain"
  }

  /**
   * `_determinar_flujo`: a four-agent flow for the three areas with one of
   * their own, the five-agent default for any other string; every flow
   * starts with the analyst and the architect.
   */
  function DeterminarFlujo(area: string): (f: seq<string>)
    ensures TieneFlujoPropio(area) ==> |f| == 4 && f == FLUJOS[area]
    ensures !TieneFlujoPropio(area) ==> f == FLUJOS["default"] && |f| == 5
    ensures |f| >= 4 && f[0] == "analista" && f[1] == "arquitecto"
  {
    if area in FLUJOS then FLUJOS[area] else FLUJOS["default"]
  }

  /** Every agent a flow names is one of the base agents, and no flow names one twice. */
  lemma FlujoDeAgentesBase(area: string)
    ensures forall i :: 0 <= i < |DeterminarFlujo(area)| ==> DeterminarFlujo(area)[i] in AGENTES_BASE.vals
    ensures Distinct(DeterminarFlujo(area))
  {
  }

  /** The configuration of the agents for one area. */
  datatype ConfiguracionAgentes = ConfiguracionAgentes(agentes: Dict<string, Agente>, flujo: seq<string>)

  /** The configuration `crear_agentes_especializados` stores for `area`. */
  function ConfiguracionDe(area: string): ConfiguracionAgentes {
    ConfiguracionAgentes(AGENTES_BASE, DeterminarFlujo(area))
  }

  /** Prefixing with the empty string changes nothing. */
  lemma PrefijoVacio(names: seq<string>)
    ensures Prefixed("", names) == names
  {
    assert forall i :: 0 <= i < |names| ==> "" + names[i] == names[i];
  }

  /**
   * `crear_agentes_especializados`: one entry per distinct area, in
   * first-seen order, each holding the same base agents and the area's flow.
   */
  method CrearAgentesEspecializados(areas: seq<string>) returns (c: Dict<string, ConfiguracionAgentes>)
    ensures c.Valid()
    ensures c.keys == Dedup(areas) && c.Len() == |set a | a in areas|
    ensures forall i :: 0 <= i < |areas| ==>
      areas[i] in c.vals && c.vals[areas[i]].agentes == AGENTES_BASE && c.vals[areas[i]].flujo == DeterminarFlujo(areas[i])
  {
    c := PutEach(Empty(), "", areas, ConfiguracionDe);
    PrefijoVacio(areas);
    DedupLength(areas);
    assert forall i :: 0 <= i < |areas| ==> "" + areas[i] == areas[i];
  }

  /** An orchestration configuration: a flat one over a list of agents, or a manager with workers. */
  datatype Orquestacion =
    | Plana(tipo: PatronOrquestacion, agentes: seq<string>, inputInicial: string, descripcion: string)
    | Jerarquica(manager: string, workers: seq<string>, inputInicial: string, descripcion: string)
  {
    /** The pattern stored under `"tipo"`. */
    function Patron(): PatronOrquestacion {
      match this
      case Plana(tipo, _, _, _) => tipo
      case Jerarquica(_, _, _, _) => Jerarquico
    }
  }

  /** `crear_orquestacion_secuencial`: the agents in order, each passing its output on. */
  function CrearOrquestacionSecuencial(agentes: seq<string>, inputInicial: string): (o: Orquestacion)
    ensures o.Patron() == Secuencial && o.Plana? && o.agentes == agentes && o.inputInicial == inputInicial
  {
    Plana(Secuencial, agentes, inputInicial,
          "Los agentes ejecutan en secuencia, pasando output como input al siguiente")
  }

  /** `crear_orquestacion_paralela`: the agents all receive the same input. */
  function CrearOrquestacionParalela(agentes: seq<string>, inputInicial: string): (o: Orquestacion)
    ensures o.Patron() == Paralelo && o.Plana? && o.agentes == agentes && o.inputInicial == inputInicial
  {
    Plana(Paralelo, agentes, inputInicial,
          "Todos los agentes reciben el mismo input y ejecutan concurrentemente")
  }

  /** `crear_orquestacion_hierarquica`: a manager coordinating workers. */
  function CrearOrquestacionJerarquica(manager: string, workers: seq<string>, inputInicial: string): (o: Orquestacion)
    ensures o.Patron() == Jerarquico && o.Jerarquica? && o.manager == manager && o.workers == workers
    ensures o.inputInicial == inputInicial
  {
    Jerarquica(manager, workers, inputInicial, "Un agente manager coordina trabajadores especializados")
  }

  /** Who runs a plan step: one agent or several at once. */
  datatype Ejecutor = UnAgente(nombre: string) | VariosAgentes(nombres: seq<string>)

  /** One plan step; the parallel plan's step carries no order number. */
  datatype PasoPlan = PasoPlan(orden: Option<nat>, ejecutor: Ejecutor, descripcion: string)

  /** An execution plan. */
  datatype Plan = Plan(pasos: seq<PasoPlan>, ventajas: seq<string>, desventajas: seq<string>)

  const PLAN_SECUENCIAL: Plan := Plan(
    [ PasoPlan(Some(1), UnAgente("analista"), "Analizar necesidad"),
      PasoPlan(Some(2), UnAgente("arquitecto"), "Diseñar solución"),
      PasoPlan(Some(3), UnAgente("desarrollador"), "Implementar"),
      PasoPlan(Some(4), UnAgente("qa"), "Validar") ],
    ["Orden claro", "Dependencias manejadas"],
    ["Tiempo total = suma de todos"])

  const PLAN_PARALELO: Plan := Plan(
    [ PasoPlan(None, VariosAgentes(["arquitecto", "devops", "qa"]), "Ejecución paralela") ],
    ["Más rápido", "Independencia"],
    ["Puede haber trabajo duplicado"])

  const PLAN_JERARQUICO: Plan := Plan(
    [ PasoPlan(Some(1), UnAgente("manager"), "Planificar y dividir tareas"),
      PasoPlan(Some(2), VariosAgentes(["analista", "arquitecto"]), "Ejecutar en paralelo"),
      PasoPlan(Some(3), UnAgente("manager"), "Consolidar resultados") ],
    ["Escalable", "Inteligente"],
    ["Más complejo"])

  /** The plan table, keyed by pattern. */
  const PLANES: map<PatronOrquestacion, Plan> := map[
    Secuencial := PLAN_SECUENCIAL,
    Paralelo := PLAN_PARALELO,
    Jerarquico := PLAN_JERARQUICO
  ]

  /**
   * `generar_plan_ejecucion`: the table's plan for the pattern; `None`
   * stands for the empty dict returned for a pattern without a plan.
   */
  function GenerarPlanEjecucion(necesidad: string, patron: PatronOrquestacion): (p: Option<Plan>)
    ensures p.None? <==> patron.ConsumerProducer?
    ensures !patron.ConsumerProducer? ==> patron in PLANES && p == Some(PLANES[patron])
  {
    if patron in PLANES then Some(PLANES[patron]) else None
  }

  /**
   * The sequential plan has four single-agent steps numbered 1 to 4 in
   * order, run by base agents, in the order of the default flow without
   * DevOps.
   */
  lemma PlanSecuencialOrdenado(necesidad: string)
    ensures var p := GenerarPlanEjecucion(necesidad, Secuencial);
      && p.Some? && |p.value.pasos| == 4
      && (forall i :: 0 <= i < 4 ==> p.value.pasos[i].orden == Some(i + 1) && p.value.pasos[i].ejecutor.UnAgente?)
      && (forall i :: 0 <= i < 4 ==> p.value.pasos[i].ejecutor.nombre == DeterminarFlujo("")[i])
      && (forall i :: 0 <= i < 4 ==> p.value.pasos[i].ejecutor.nombre in AGENTES_BASE.vals)
  {
    var p := GenerarPlanEjecucion(necesidad, Secuencial).value;
    assert p == PLAN_SECUENCIAL;
    assert forall i :: 0 <= i < 4 ==> p.pasos[i].orden == Some(i + 1);
  }

  /** Every numbered step of every plan is numbered by its position, starting at 1. */
  lemma PlanesNumerados(necesidad: string, patron: PatronOrquestacion)
    requires GenerarPlanEjecucion(necesidad, patron).Some?
    ensures var pasos := GenerarPlanEjecucion(necesidad, patron).value.pasos;
      pasos != [] && forall i :: 0 <= i < |pasos| && pasos[i].orden.Some? ==> pasos[i].orden.value == i + 1
  {
  }

  // ---------------------------------------------------------------------------
  // The integrating skill
  // ---------------------------------------------------------------------------

  /** The header every summary starts with. */
  const ENCABEZADO_RESUMEN: string := "## Resumen de Componentes\n\n"

  const ETIQUETA_TECNOLOGIAS: string := "- **Tecnologías**: "
  const ETIQUETA_RESPONSABILIDAD: string := "- **Responsabilidad**: "

  /** The heading line of a component's block. */
  function LineaNombre(comp: ComponenteArquitectura): string {
    "### " + comp.nombre + "\n"
  }

  /** The kind line of a component's block. */
  function LineaTipo(comp: ComponenteArquitectura): string {
    "- **Tipo**: " + comp.tipo + "\n"
  }

  /** The description line of a component's block. */
  function LineaDescripcion(comp: ComponenteArquitectura): string {
    "- **Descripción**: " + comp.descripcion + "\n"
  }

  /** The technologies line of a component's block: present only for a non-empty list. */
  function LineaTecnologias(comp: ComponenteArquitectura): (l: string)
    ensures l == [] <==> comp.tecnologias == []
    ensures comp.tecnologias != [] ==> HasPrefix(l, ETIQUETA_TECNOLOGIAS) && l[|l| - 1] == '\n'
  {
    if comp.tecnologias != [] then ETIQUETA_TECNOLOGIAS + Join(", ", comp.tecnologias) + "\n" else ""
  }

  /** The responsibility line of a component's block: present only for a non-empty text. */
  function LineaResponsabilidad(comp: ComponenteArquitectura): (l: string)
    ensures l == [] <==> comp.responsabilidad == []
    ensures comp.responsabilidad != [] ==> HasPrefix(l, ETIQUETA_RESPONSABILIDAD) && l[|l| - 1] == '\n'
  {
    if comp.responsabilidad != [] then ETIQUETA_RESPONSABILIDAD + comp.responsabilidad + "\n" else ""
  }

  /** The summary block of one component: its name as a heading, its lines, and a blank line. */
  function Bloque(comp: ComponenteArquitectura): string {
    LineaNombre(comp) + LineaTipo(comp) + LineaDescripcion(comp)
    + LineaTecnologias(comp) + LineaResponsabilidad(comp) + "\n"
  }

  /** Appending the six pieces of a block one after the other appends the block. */
  lemma AnexarSeis(a: string, b1: string, b2: string, b3: string, b4: string, b5: string, b6: string)
    ensures a + b1 + b2 + b3 + b4 + b5 + b6 == a + (b1 + b2 + b3 + b4 + b5 + b6)
  {
  }

  /** The blocks of a component map, in map order. */
  function Bloques(c: Componentes): (bs: seq<string>)
    requires c.Valid()
    ensures |bs| == |c.keys|
    ensures forall i :: 0 <= i < |c.keys| ==> bs[i] == Bloque(c.vals[c.keys[i]])
  {
    seq(|c.keys|, i requires 0 <= i < |c.keys| && c.Valid() => Bloque(c.vals[c.keys[i]]))
  }

  /** The summary `_generar_resumen` builds: the header, then one block per component. */
  function Resumen(c: Componentes): string
    requires c.Valid()
  {
    ENCABEZADO_RESUMEN + Concat(Bloques(c))
  }

  /** A component's block starts with its name as a heading. */
  lemma BloqueEncabezado(comp: ComponenteArquitectura)
    ensures HasPrefix(Bloque(comp), "### " + comp.nombre + "\n")
  {
    var h := LineaNombre(comp);
    assert Bloque(comp) == h + (LineaTipo(comp) + LineaDescripcion(comp)
      + LineaTecnologias(comp) + LineaResponsabilidad(comp) + "\n");
    assert Bloque(comp)[..|h|] == h;
  }

  /** Where the block of the `j`-th component starts in the summary. */
  function PosicionBloque(c: Componentes, j: nat): nat
    requires c.Valid() && j <= |c.keys|
  {
    |ENCABEZADO_RESUMEN| + |Concat(Bloques(c)[..j])|
  }

  /**
   * The summary starts with the header, and each component's block, which
   * starts with its name as a heading, occurs at its position.
   */
  lemma ResumenContieneBloque(c: Componentes, j: nat)
    requires c.Valid() && j < |c.keys|
    ensures HasPrefix(Resumen(c), ENCABEZADO_RESUMEN)
    ensures OccursAt(Resumen(c), Bloque(c.vals[c.keys[j]]), PosicionBloque(c, j))
    ensures OccursAt(Resumen(c), "### " + c.vals[c.keys[j]].nombre + "\n", PosicionBloque(c, j))
  {
    var bs := Bloques(c);
    assert Resumen(c)[..|ENCABEZADO_RESUMEN|] == ENCABEZADO_RESUMEN;
    ConcatAtAfter(ENCABEZADO_RESUMEN, bs, j);
    BloqueEncabezado(c.vals[c.keys[j]]);
    OccursAtStart(Resumen(c), bs[j], "### " + c.vals[c.keys[j]].nombre + "\n", PosicionBloque(c, j));
  }

  /** The blocks follow the map order: a block ends before any later one starts. */
  lemma ResumenEnOrden(c: Componentes, j: nat, k: nat)
    requires c.Valid() && j < k < |c.keys|
    ensures PosicionBloque(c, j) + |Bloque(c.vals[c.keys[j]])| <= PosicionBloque(c, k)
  {
    ConcatOrdered(Bloques(c), j, k);
  }

  /** An empty map's summary is the header alone. */
  lemma ResumenVacio(c: Componentes)
    requires c.Valid() && c.keys == []
    ensures Resumen(c) == ENCABEZADO_RESUMEN
  {
  }

  /** The summary after its first `i` blocks. */
  function ResumenHasta(c: Componentes, i: nat): string
    requires c.Valid() && i <= |c.keys|
  {
    ENCABEZADO_RESUMEN + Concat(Bloques(c)[..i])
  }

  /** Appending the lines of the next component's block extends the summary by that block. */
  lemma ResumenHastaSiguiente(c: Componentes, i: nat, antes: string, r: string)
    requires c.Valid() && i < |c.keys|
    requires antes == ResumenHasta(c, i)
    requires var comp := c.vals[c.keys[i]];
      r == antes + LineaNombre(comp) + LineaTipo(comp) + LineaDescripcion(comp)
           + LineaTecnologias(comp) + LineaResponsabilidad(comp) + "\n"
    ensures r == ResumenHasta(c, i + 1)
  {
    var comp := c.vals[c.keys[i]];
    AnexarSeis(antes, LineaNombre(comp), LineaTipo(comp), LineaDescripcion(comp),
               LineaTecnologias(comp), LineaResponsabilidad(comp), "\n");
    ConcatSnoc(ENCABEZADO_RESUMEN, Bloques(c), i);
  }

  /** After all the blocks, the partial summary is the summary. */
  lemma ResumenHastaFinal(c: Componentes)
    requires c.Valid()
    ensures ResumenHasta(c, |c.keys|) == Resumen(c)
  {
    assert Bloques(c)[..|c.keys|] == Bloques(c);
  }

  /** `_generar_resumen`: the header, then for each component in map order its block, line by line. */
  method GenerarResumen(componentes: Componentes) returns (resumen: string)
    requires componentes.Valid()
    ensures resumen == Resumen(componentes)
  {
    resumen := ENCABEZADO_RESUMEN;
    for i := 0 to |componentes.keys|
      invariant resumen == ResumenHasta(componentes, i)
    {
      var comp := componentes.vals[componentes.keys[i]];
      ghost var antes := resumen;
      resumen := resumen + LineaNombre(comp);
      resumen := resumen + LineaTipo(comp);
      resumen := resumen + LineaDescripcion(comp);
      if comp.tecnologias != [] {
        resumen := resumen + LineaTecnologias(comp);
      }
      ghost var conTecnologias := resumen;
      assert conTecnologias == antes + LineaNombre(comp) + LineaTipo(comp) + LineaDescripcion(comp)
                               + LineaTecnologias(comp);
      if comp.responsabilidad != [] {
        resumen := resumen + LineaResponsabilidad(comp);
      }
      assert resumen == conTecnologias + LineaResponsabilidad(comp);
      resumen := resumen + "\n";
      ResumenHastaSiguiente(componentes, i, antes, resumen);
    }
    ResumenHastaFinal(componentes);
  }

  /** What `generar_arquitectura_completa` returns. */
  datatype ArquitecturaCompleta = ArquitecturaCompleta(
    tipoArquitectura: string,
    componentes: Componentes,
    diagrama: string,
    resumen: string
  )

  /**
   * `generar_arquitectura_completa`: the component map for microservices or
   * serverless (the services becoming functions for the latter), an empty
   * one for any other kind, with the kind's value, diagram and summary.
   */
  method GenerarArquitecturaCompleta(tipo: TipoArquitectura, contexto: string, servicios: seq<string>)
    returns (a: ArquitecturaCompleta)
    ensures a.tipoArquitectura == tipo.Valor()
    ensures a.componentes.Valid()
    ensures tipo == Microservicios ==>
      a.componentes.keys == ClavesMicroservicios(servicios) && ValoresMicroservicios(a.componentes, servicios)
    ensures tipo == Serverless ==>
      a.componentes.keys == ClavesServerless(servicios) && ValoresServerless(a.componentes, servicios)
    ensures tipo != Microservicios && tipo != Serverless ==> a.componentes == Empty()
    ensures a.diagrama == GenerarDiagramaArquitectura(tipo, contexto)
    ensures a.resumen == Resumen(a.componentes)
  {
    var componentes: Componentes;
    if tipo == Microservicios {
      componentes := GenerarArquitecturaMicroservicios(contexto, servicios);
    } else if tipo == Serverless {
      componentes := GenerarArquitecturaServerless(contexto, servicios);
    } else {
      componentes := Empty();
    }
    var diagrama := GenerarDiagramaArquitectura(tipo, contexto);
    var resumen := GenerarResumen(componentes);
    a := ArquitecturaCompleta(tipo.Valor(), componentes, diagrama, resumen);
  }

  /** With nothing requested, only the fixed layers remain, in their order. */
  lemma SoloCapasFijas()
    ensures ClavesMicroservicios([]) == ["api_gateway", "service_mesh", "base_datos", "mensajeria", "observabilidad"]
    ensures ClavesServerless([]) == ["http_gateway", "storage", "queue", "cdn"]
  {
    assert Dedup(Prefixed("servicio_", [])) == [];
    assert Dedup(Prefixed("funcion_", [])) == [];
  }

  /** What `crear_agente_hibrido` returns. */
  datatype AgenteHibrido = AgenteHibrido(necesidad: string, arquitectura: ArquitecturaCompleta, orquestacion: Option<Plan>)

  /**
   * `crear_agente_hibrido`: the complete architecture for the need with no
   * services requested, so only the fixed components, and the plan for the
   * pattern.
   */
  method CrearAgenteHibrido(necesidad: string, tipoArquitectura: TipoArquitectura, patronOrquestacion: PatronOrquestacion)
    returns (h: AgenteHibrido)
    ensures h.necesidad == necesidad
    ensures h.arquitectura.tipoArquitectura == tipoArquitectura.Valor()
    ensures tipoArquitectura == Microservicios ==>
      h.arquitectura.componentes.keys == ["api_gateway", "service_mesh", "base_datos", "mensajeria", "observabilidad"]
    ensures tipoArquitectura == Serverless ==>
      h.arquitectura.componentes.keys == ["http_gateway", "storage", "queue", "cdn"]
    ensures tipoArquitectura == Microservicios ==> ValoresMicroservicios(h.arquitectura.componentes, [])
    ensures tipoArquitectura == Serverless ==> ValoresServerless(h.arquitectura.componentes, [])
    ensures tipoArquitectura != Microservicios && tipoArquitectura != Serverless ==> h.arquitectura.componentes == Empty()
    ensures h.arquitectura.componentes.Valid()
    ensures h.arquitectura.diagrama == GenerarDiagramaArquitectura(tipoArquitectura, necesidad)
    ensures h.arquitectura.resumen == Resumen(h.arquitectura.componentes)
    ensures h.orquestacion == GenerarPlanEjecucion(necesidad, patronOrquestacion)
  {
    var arquitectura := GenerarArquitecturaCompleta(tipoArquitectura, necesidad, []);
    SoloCapasFijas();
    h := AgenteHibrido(necesidad, arquitectura, GenerarPlanEjecucion(necesidad, patronOrquestacion));
  }
}
