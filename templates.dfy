/**
 * The template registry: ten static proposal templates, one per business
 * area, in registration order; keyword scoring that picks an area for a free
 * text; lookup of a template by area identifier.
 */
module Templates {
  import opened Wrappers
  import opened PyStrings
  import opened PyDicts

  /** One proposal template (a record that is never mutated). */
  datatype TemplatePropuesta = TemplatePropuesta(
    area: string,               // display name, e.g. "Fintech"
    descripcion: string,
    problemaBase: string,
    solucionBase: string,
    arquitecturaBase: string,
    riesgosBase: seq<string>,   // "<risk> - Mitigación: <mitigation>"
    tecnologias: seq<string>,
    palabrasClave: seq<string>  // matched as raw substrings of the lowered input
  )

  const Fintech: TemplatePropuesta := TemplatePropuesta(
    area := "Fintech",
    descripcion := "Soluciones financieras tecnológicas",
    problemaBase := "<fintech.problema_base>",
    solucionBase := "<fintech.solucion_base>",
    arquitecturaBase := "<fintech.arquitectura_base>",
    riesgosBase := [
      "<fintech.riesgo_1> - Mitigación: <fintech.mitigacion_1>",
      "<fintech.riesgo_2> - Mitigación: <fintech.mitigacion_2>",
      "<fintech.riesgo_3> - Mitigación: <fintech.mitigacion_3>",
      "<fintech.riesgo_4> - Mitigación: <fintech.mitigacion_4>"
    ],
    tecnologias := [
      "Python/Django",
      "PostgreSQL",
      "Redis",
      "Kafka",
      "Kubernetes",
      "AWS/GCP",
      "Stripe API"
    ],
    palabrasClave := [
      "pagos",
      "banco",
      "transacciones",
      "crédito",
      "préstamo",
      "tarjeta",
      "banca",
      "finanzas",
      "criptomoneda"
    ]
  )

  const AppMoviles: TemplatePropuesta := TemplatePropuesta(
    area := "Aplicaciones Móviles",
    descripcion := "Desarrollo de apps iOS y Android",
    problemaBase := "<app_moviles.problema_base>",
    solucionBase := "<app_moviles.solucion_base>",
    arquitecturaBase := "<app_moviles.arquitectura_base>",
    riesgosBase := [
      "<app_moviles.riesgo_1> - Mitigación: <app_moviles.mitigacion_1>",
      "<app_moviles.riesgo_2> - Mitigación: <app_moviles.mitigacion_2>",
      "<app_moviles.riesgo_3> - Mitigación: <app_moviles.mitigacion_3>",
      "<app_moviles.riesgo_4> - Mitigación: <app_moviles.mitigacion_4>"
    ],
    tecnologias := [
      "Flutter",
      "React Native",
      "Swift",
      "Kotlin",
      "Firebase",
      "GraphQL",
      "Realm"
    ],
    palabrasClave := [
      "app",
      "móvil",
      "ios",
      "android",
      "smartphone",
      "aplicación",
      "usuario",
      "interfaz"
    ]
  )

  const Blockchain: TemplatePropuesta := TemplatePropuesta(
    area := "Blockchain",
    descripcion := "Soluciones basadas en tecnología blockchain",
    problemaBase := "<blockchain.problema_base>",
    solucionBase := "<blockchain.solucion_base>",
    arquitecturaBase := "<blockchain.arquitectura_base>",
    riesgosBase := [
      "<blockchain.riesgo_1> - Mitigación: <blockchain.mitigacion_1>",
      "<blockchain.riesgo_2> - Mitigación: <blockchain.mitigacion_2>",
      "<blockchain.riesgo_3> - Mitigación: <blockchain.mitigacion_3>",
      "<blockchain.riesgo_4> - Mitigación: <blockchain.mitigacion_4>"
    ],
    tecnologias := [
      "Solidity",
      "Ethereum",
      "Polygon",
      "Hyperledger",
      "Web3.js",
      "IPFS",
      "Chainlink"
    ],
    palabrasClave := [
      "blockchain",
      "smart contract",
      "token",
      "criptomoneda",
      "descentralizado",
      "web3",
      "nft",
      "defi"
    ]
  )

  const Arquitectura: TemplatePropuesta := TemplatePropuesta(
    area := "Arquitectura de Sistemas",
    descripcion := "Diseño y modernización de infraestructura",
    problemaBase := "<arquitectura.problema_base>",
    solucionBase := "<arquitectura.solucion_base>",
    arquitecturaBase := "<arquitectura.arquitectura_base>",
    riesgosBase := [
      "<arquitectura.riesgo_1> - Mitigación: <arquitectura.mitigacion_1>",
      "<arquitectura.riesgo_2> - Mitigación: <arquitectura.mitigacion_2>",
      "<arquitectura.riesgo_3> - Mitigación: <arquitectura.mitigacion_3>",
      "<arquitectura.riesgo_4> - Mitigación: <arquitectura.mitigacion_4>"
    ],
    tecnologias := [
      "Docker",
      "Kubernetes",
      "Terraform",
      "AWS",
      "Azure",
      "GCP",
      "Istio",
      "Prometheus"
    ],
    palabrasClave := [
      "microservicios",
      "serverless",
      "contenedores",
      "docker",
      "kubernetes",
      "cloud",
      "infraestructura",
      "despliegue"
    ]
  )

  const Seguros: TemplatePropuesta := TemplatePropuesta(
    area := "Seguros",
    descripcion := "Digitalización del sector asegurador",
    problemaBase := "<seguros.problema_base>",
    solucionBase := "<seguros.solucion_base>",
    arquitecturaBase := "<seguros.arquitectura_base>",
    riesgosBase := [
      "<seguros.riesgo_1> - Mitigación: <seguros.mitigacion_1>",
      "<seguros.riesgo_2> - Mitigación: <seguros.mitigacion_2>",
      "<seguros.riesgo_3> - Mitigación: <seguros.mitigacion_3>",
      "<seguros.riesgo_4> - Mitigación: <seguros.mitigacion_4>"
    ],
    tecnologias := [
      "Java/Spring",
      "PostgreSQL",
      "Redis",
      "Drools",
      "Python/ML",
      "Camunda"
    ],
    palabrasClave := [
      "póliza",
      "reclamo",
      "siniestro",
      "cotización",
      "prima",
      "asegurado",
      "riesgo",
      "cobertura"
    ]
  )

  const Medica: TemplatePropuesta := TemplatePropuesta(
    area := "Salud / Médica",
    descripcion := "Digitalización del sector salud",
    problemaBase := "<medica.problema_base>",
    solucionBase := "<medica.solucion_base>",
    arquitecturaBase := "<medica.arquitectura_base>",
    riesgosBase := [
      "<medica.riesgo_1> - Mitigación: <medica.mitigacion_1>",
      "<medica.riesgo_2> - Mitigación: <medica.mitigacion_2>",
      "<medica.riesgo_3> - Mitigación: <medica.mitigacion_3>",
      "<medica.riesgo_4> - Mitigación: <medica.mitigacion_4>"
    ],
    tecnologias := [
      "HL7 FHIR",
      "Python/Django",
      "React",
      "PostgreSQL",
      "WebRTC",
      "IoMT"
    ],
    palabrasClave := [
      "paciente",
      "historial clínico",
      "cita",
      "médico",
      "diagnóstico",
      "receta",
      "hospital",
      "telemedicina"
    ]
  )

  const Telecomunicaciones: TemplatePropuesta := TemplatePropuesta(
    area := "Telecomunicaciones",
    descripcion := "Gestión de redes y servicios de telecom",
    problemaBase := "<telecomunicaciones.problema_base>",
    solucionBase := "<telecomunicaciones.solucion_base>",
    arquitecturaBase := "<telecomunicaciones.arquitectura_base>",
    riesgosBase := [
      "<telecomunicaciones.riesgo_1> - Mitigación: <telecomunicaciones.mitigacion_1>",
      "<telecomunicaciones.riesgo_2> - Mitigación: <telecomunicaciones.mitigacion_2>",
      "<telecomunicaciones.riesgo_3> - Mitigación: <telecomunicaciones.mitigacion_3>",
      "<telecomunicaciones.riesgo_4> - Mitigación: <telecomunicaciones.mitigacion_4>"
    ],
    tecnologias := [
      "Java",
      "PostgreSQL",
      "Kafka",
      "SNMP",
      "ONAP",
      "Kubernetes",
      "Prometheus"
    ],
    palabrasClave := [
      "red",
      "operador",
      "servicio",
      "facturación",
      "cdr",
      "backhaul",
      "fibra",
      "5g"
    ]
  )

  const Transporte: TemplatePropuesta := TemplatePropuesta(
    area := "Transporte y Logística",
    descripcion := "Gestión de flotas y logística",
    problemaBase := "<transporte.problema_base>",
    solucionBase := "<transporte.solucion_base>",
    arquitecturaBase := "<transporte.arquitectura_base>",
    riesgosBase := [
      "<transporte.riesgo_1> - Mitigación: <transporte.mitigacion_1>",
      "<transporte.riesgo_2> - Mitigación: <transporte.mitigacion_2>",
      "<transporte.riesgo_3> - Mitigación: <transporte.mitigacion_3>",
      "<transporte.riesgo_4> - Mitigación: <transporte.mitigacion_4>"
    ],
    tecnologias := [
      "Python",
      "PostgreSQL",
      "Redis",
      "GraphHopper",
      "AWS IoT",
      "React Native"
    ],
    palabrasClave := [
      "ruta",
      "flota",
      "camión",
      "entrega",
      "carga",
      "logística",
      "tracking",
      "conductor"
    ]
  )

  const Almacenamiento: TemplatePropuesta := TemplatePropuesta(
    area := "Almacenamiento y Bodegaje",
    descripcion := "Gestión de inventarios y almacenes",
    problemaBase := "<almacenamiento.problema_base>",
    solucionBase := "<almacenamiento.solucion_base>",
    arquitecturaBase := "<almacenamiento.arquitectura_base>",
    riesgosBase := [
      "<almacenamiento.riesgo_1> - Mitigación: <almacenamiento.mitigacion_1>",
      "<almacenamiento.riesgo_2> - Mitigación: <almacenamiento.mitigacion_2>",
      "<almacenamiento.riesgo_3> - Mitigación: <almacenamiento.mitigacion_3>",
      "<almacenamiento.riesgo_4> - Mitigación: <almacenamiento.mitigacion_4>"
    ],
    tecnologias := [
      "Java",
      "PostgreSQL",
      "RFID",
      "Barcode",
      "Kafka",
      "React",
      "IoT"
    ],
    palabrasClave := [
      "bodega",
      "inventario",
      "picking",
      "ubicación",
      "producto",
      "stock",
      "recepción",
      "expedición"
    ]
  )

  const Combustibles: TemplatePropuesta := TemplatePropuesta(
    area := "Combustibles y Energía",
    descripcion := "Gestión de estaciones de servicio y distribución",
    problemaBase := "<combustibles.problema_base>",
    solucionBase := "<combustibles.solucion_base>",
    arquitecturaBase := "<combustibles.arquitectura_base>",
    riesgosBase := [
      "<combustibles.riesgo_1> - Mitigación: <combustibles.mitigacion_1>",
      "<combustibles.riesgo_2> - Mitigación: <combustibles.mitigacion_2>",
      "<combustibles.riesgo_3> - Mitigación: <combustibles.mitigacion_3>",
      "<combustibles.riesgo_4> - Mitigación: <combustibles.mitigacion_4>"
    ],
    tecnologias := [
      "C#/.NET",
      "SQL Server",
      "IoT",
      "Modbus",
      "REST API",
      "Azure"
    ],
    palabrasClave := [
      "combustible",
      "gasolina",
      "diésel",
      "tanque",
      "estación",
      "dispensario",
      "inventario",
      "bomba"
    ]
  )

  /** A registry: area identifiers paired with their templates, in registration order. */
  type Registro = seq<(string, TemplatePropuesta)>

  /** The registry of the system: area identifier and template, in registration order. */
  const TEMPLATES: Registro := [
    ("fintech", Fintech),
    ("app_moviles", AppMoviles),
    ("blockchain", Blockchain),
    ("arquitectura", Arquitectura),
    ("seguros", Seguros),
    ("medica", Medica),
    ("telecomunicaciones", Telecomunicaciones),
    ("transporte", Transporte),
    ("almacenamiento", Almacenamiento),
    ("combustibles", Combustibles)
  ]

  /** What detection answers when no template keyword occurs in the text. */
  const GENERAL: string := "general"

  /** The area whose template stands in for any identifier that is not registered. */
  const AREA_POR_DEFECTO: string := "fintech"

  // ---------------------------------------------------------------------------
  // Listing and lookup
  // ---------------------------------------------------------------------------

  /** The area identifiers of `reg` in registration order (the keys of the registry dict). */
  function ListarAreas(reg: Registro): (r: seq<string>)
    ensures |r| == |reg|
    ensures forall i :: 0 <= i < |reg| ==> r[i] == reg[i].0
  {
    seq(|reg|, i requires 0 <= i < |reg| => reg[i].0)
  }

  /**
   * What a registry must satisfy to behave as a dict keyed by area: no
   * identifier twice, "general" never an identifier, and the default area
   * registered.
   */
  ghost predicate RegistroValido(reg: Registro) {
    && Distinct(ListarAreas(reg))
    && GENERAL !in ListarAreas(reg)
    && AREA_POR_DEFECTO in ListarAreas(reg)
  }

  /**
   * The system's registry is valid, and listing it gives the ten area
   * identifiers in registration order.
   */
  lemma TemplatesValido()
    ensures RegistroValido(TEMPLATES)
    ensures ListarAreas(TEMPLATES) == ["fintech", "app_moviles", "blockchain", "arquitectura", "seguros",
                                       "medica", "telecomunicaciones", "transporte", "almacenamiento", "combustibles"]
    ensures TEMPLATES[0] == (AREA_POR_DEFECTO, Fintech)
  {
    var ids := ListarAreas(TEMPLATES);
    assert ids == ["fintech", "app_moviles", "blockchain", "arquitectura", "seguros",
                   "medica", "telecomunicaciones", "transporte", "almacenamiento", "combustibles"];
  }

  /** `t` is one of the templates of `reg`. */
  ghost predicate IsRegistered(reg: Registro, t: TemplatePropuesta) {
    exists i :: 0 <= i < |reg| && reg[i].1 == t
  }

  /** The template registered under `area` at or after position `from`, as a dict lookup. */
  function LookupFrom(reg: Registro, area: string, from: nat): (r: Option<TemplatePropuesta>)
    requires from <= |reg|
    ensures r.None? <==> forall j :: from <= j < |reg| ==> reg[j].0 != area
    ensures r.Some? ==> exists j :: from <= j < |reg| && reg[j].0 == area && r.value == reg[j].1
    decreases |reg| - from
  {
    if from == |reg| then None
    else if reg[from].0 == area then Some(reg[from].1)
    else LookupFrom(reg, area, from + 1)
  }

  /**
   * The template registered under `area`; for any other string, "general"
   * included, the template of the default area "fintech".
   */
  function ObtenerTemplate(reg: Registro, area: string): (t: TemplatePropuesta)
    requires RegistroValido(reg)
    ensures forall i :: 0 <= i < |reg| && reg[i].0 == area ==> t == reg[i].1
    ensures area !in ListarAreas(reg) ==>
      forall i :: 0 <= i < |reg| && reg[i].0 == AREA_POR_DEFECTO ==> t == reg[i].1
    ensures IsRegistered(reg, t)
  {
    var ids := ListarAreas(reg);
    assert forall i, j :: 0 <= i < |reg| && 0 <= j < |reg| && reg[i].0 == reg[j].0 ==> i == j by {
      forall i, j | 0 <= i < |reg| && 0 <= j < |reg| && reg[i].0 == reg[j].0 ensures i == j {
        assert ids[i] == ids[j];
      }
    }
    match LookupFrom(reg, area, 0)
    case Some(t) => t
    case None =>
      var k :| 0 <= k < |ids| && ids[k] == AREA_POR_DEFECTO;
      LookupFrom(reg, AREA_POR_DEFECTO, 0).GetOr(reg[k].1)
  }

  /** Over the system's registry, "general" and every unknown identifier give the fintech template. */
  lemma ObtenerTemplatePorDefecto(area: string)
    requires area !in ListarAreas(TEMPLATES)
    ensures RegistroValido(TEMPLATES) && ObtenerTemplate(TEMPLATES, area) == Fintech
  {
    TemplatesValido();
  }

  // ---------------------------------------------------------------------------
  // Keyword scoring and area detection
  // ---------------------------------------------------------------------------

  /**
   * How many of `keywords` occur as substrings of `text`: each keyword counts
   * once however often it occurs, and none is split into words.
   */
  function Score(keywords: seq<string>, text: string): (n: nat)
    ensures n <= |keywords|
    decreases |keywords|
  {
    if keywords == [] then 0
    else (if Contains(text, keywords[0]) then 1 else 0) + Score(keywords[1..], text)
  }

  /** A score is 0 exactly when none of the keywords occurs in the text. */
  lemma {:induction false} ScoreZeroIff(keywords: seq<string>, text: string)
    ensures Score(keywords, text) == 0 <==> forall k :: k in keywords ==> !Contains(text, k)
    decreases |keywords|
  {
    if keywords != [] {
      ScoreZeroIff(keywords[1..], text);
      assert forall k :: k in keywords <==> k == keywords[0] || k in keywords[1..];
    }
  }

  /** Adding text around the input never lowers a score. */
  lemma {:induction false} ScoreMonotone(keywords: seq<string>, text: string, before: string, after: string)
    ensures Score(keywords, text) <= Score(keywords, before + text + after)
    decreases |keywords|
  {
    if keywords != [] {
      ScoreMonotone(keywords[1..], text, before, after);
      if Contains(text, keywords[0]) {
        ContainsExtend(text, keywords[0], before, after);
      }
    }
  }

  /** The score of the `i`-th template of `reg` against the lowered input. */
  function AreaScore(reg: Registro, lowered: string, i: nat): nat
    requires i < |reg|
  {
    Score(reg[i].1.palabrasClave, lowered)
  }

  /**
   * Template `i` wins: it scores at least 1, no template scores more, and
   * every template registered before it scores strictly less.
   */
  ghost predicate IsWinner(reg: Registro, lowered: string, i: nat)
    requires i < |reg|
  {
    && AreaScore(reg, lowered, i) >= 1
    && (forall j :: 0 <= j < |reg| ==> AreaScore(reg, lowered, j) <= AreaScore(reg, lowered, i))
    && (forall j :: 0 <= j < i ==> AreaScore(reg, lowered, j) < AreaScore(reg, lowered, i))
  }

  /**
   * `area` is the right answer of detection over `reg` for the lowered input:
   * "general" when every template scores 0, otherwise the identifier of the winner.
   */
  ghost predicate IsBestArea(reg: Registro, lowered: string, area: string) {
    || (area == GENERAL && forall j :: 0 <= j < |reg| ==> AreaScore(reg, lowered, j) == 0)
    || (exists i :: 0 <= i < |reg| && reg[i].0 == area && IsWinner(reg, lowered, i))
  }

  /**
   * What the loop of `DetectarArea` knows after scoring the first `i`
   * templates: `best` is the highest score so far and, when it is positive,
   * `area` names the first template that reached it; otherwise `area` is still
   * "general".
   */
  ghost predicate DetectDone(reg: Registro, lowered: string, i: nat, best: nat, area: string, winner: nat)
    requires i <= |reg|
  {
    && (forall j :: 0 <= j < i ==> AreaScore(reg, lowered, j) <= best)
    && (best == 0 ==> area == GENERAL)
    && (best > 0 ==> winner < i && reg[winner].0 == area && AreaScore(reg, lowered, winner) == best
                     && forall j :: 0 <= j < winner ==> AreaScore(reg, lowered, j) < best)
  }

  /** Scoring one more template keeps `DetectDone`. */
  lemma DetectStep(reg: Registro, lowered: string, i: nat, best: nat, area: string, winner: nat)
    requires i < |reg|
    requires DetectDone(reg, lowered, i, best, area, winner)
    ensures AreaScore(reg, lowered, i) > best ==> DetectDone(reg, lowered, i + 1, AreaScore(reg, lowered, i), reg[i].0, i)
    ensures AreaScore(reg, lowered, i) <= best ==> DetectDone(reg, lowered, i + 1, best, area, winner)
  {
    var score := AreaScore(reg, lowered, i);
    if score > best {
      assert forall j :: 0 <= j < i + 1 ==> AreaScore(reg, lowered, j) <= score;
    } else {
      assert forall j :: 0 <= j < i + 1 ==> AreaScore(reg, lowered, j) <= best;
    }
  }

  /** After the last template, `DetectDone` is the right answer of detection. */
  lemma DetectDoneBest(reg: Registro, lowered: string, best: nat, area: string, winner: nat)
    requires DetectDone(reg, lowered, |reg|, best, area, winner)
    ensures IsBestArea(reg, lowered, area)
    ensures area == GENERAL || area in ListarAreas(reg)
  {
    if best > 0 {
      assert IsWinner(reg, lowered, winner);
      assert ListarAreas(reg)[winner] == area;
    }
  }

  /**
   * Area detection: score every template of `reg` in registration order and
   * keep the first one with the strictly highest score; "general" when none
   * scores.
   */
  method DetectarArea(reg: Registro, necesidad: string) returns (area: string)
    ensures IsBestArea(reg, Lower(necesidad), area)
    ensures area == GENERAL || area in ListarAreas(reg)
  {
    var lowered := Lower(necesidad);
    area := GENERAL;
    var best: nat := 0;
    ghost var winner: nat := 0;
    for i := 0 to |reg|
      invariant DetectDone(reg, lowered, i, best, area, winner)
    {
      var coincidencias := AreaScore(reg, lowered, i);
      DetectStep(reg, lowered, i, best, area, winner);
      if coincidencias > best {
        best := coincidencias;
        area := reg[i].0;
        winner := i;
      }
    }
    DetectDoneBest(reg, lowered, best, area, winner);
  }

  /** Two winners for the same input are the same template. */
  lemma WinnerUnique(reg: Registro, lowered: string, i: nat, j: nat)
    requires i < |reg| && j < |reg|
    requires IsWinner(reg, lowered, i) && IsWinner(reg, lowered, j)
    ensures i == j
  {
  }

  /** Over a valid registry, detection has exactly one right answer for each input. */
  lemma BestAreaUnique(reg: Registro, lowered: string, a: string, b: string)
    requires RegistroValido(reg)
    requires IsBestArea(reg, lowered, a) && IsBestArea(reg, lowered, b)
    ensures a == b
  {
    var ids := ListarAreas(reg);
    if a != GENERAL && b != GENERAL {
      var i :| 0 <= i < |reg| && reg[i].0 == a && IsWinner(reg, lowered, i);
      var j :| 0 <= j < |reg| && reg[j].0 == b && IsWinner(reg, lowered, j);
      WinnerUnique(reg, lowered, i, j);
    }
  }

  /** When no keyword of any template occurs in the lowered input, detection says "general". */
  lemma NoKeywordMeansGeneral(reg: Registro, lowered: string, area: string)
    requires forall i, k :: 0 <= i < |reg| && k in reg[i].1.palabrasClave ==> !Contains(lowered, k)
    requires IsBestArea(reg, lowered, area)
    ensures area == GENERAL
  {
    if area != GENERAL {
      var i :| 0 <= i < |reg| && reg[i].0 == area && IsWinner(reg, lowered, i);
      ScoreZeroIff(reg[i].1.palabrasClave, lowered);
    }
  }

  /** Adding text around the input never lowers any template's score. */
  lemma AreaScoreMonotone(reg: Registro, lowered: string, before: string, after: string, i: nat)
    requires i < |reg|
    ensures AreaScore(reg, lowered, i) <= AreaScore(reg, before + lowered + after, i)
  {
    ScoreMonotone(reg[i].1.palabrasClave, lowered, before, after);
  }

  /** Containment is raw: the telecommunications keyword "red" is found inside "reducir". */
  lemma RawSubstringMatch()
    ensures "red" in Telecomunicaciones.palabrasClave
    ensures Contains("reducir costos", "red")
  {
    assert OccursAt("reducir costos", "red", 0);
  }
}
