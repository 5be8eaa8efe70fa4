/**
 * The keyword-driven proposal generator: keyword extraction, the section
 * builders, the markdown renderer, the execution trace and the pipeline
 * `GenerarPropuesta` that drives them.
 */
module Agent {
  import opened Wrappers
  import opened PyStrings
  import opened PyDicts
  import opened Templates

  // ---------------------------------------------------------------------------
  // Execution states
  // ---------------------------------------------------------------------------

  /** The stages a run goes through, as recorded in the trace. */
  datatype EstadoEjecucion =
    | Iniciado
    | AnalizandoEntrada
    | DetectandoArea
    | IdentificandoProblema
    | GenerandoSolucion
    | DisenandoArquitectura
    | AnalizandoRiesgos
    | GenerandoOutput
    | Completado
    | Error
  {
    /** The string value a trace step stores for this state. */
    function Valor(): string {
      match this
      case Iniciado => "iniciado"
      case AnalizandoEntrada => "analizando_entrada"
      case DetectandoArea => "detectando_area"
      case IdentificandoProblema => "identificando_problema"
      case GenerandoSolucion => "generando_solucion"
      case DisenandoArquitectura => "diseñando_arquitectura"
      case AnalizandoRiesgos => "analizando_riesgos"
      case GenerandoOutput => "generando_output"
      case Completado => "completado"
      case Error => "error"
    }
  }


  // ---------------------------------------------------------------------------
  // Keyword extraction: re.findall(r"\b[a-záéíóúñ]{4,}\b", text.lower())
  // ---------------------------------------------------------------------------

  /** The letters of the character class `[a-záéíóúñ]`. */
  predicate IsPatternLetter(c: char) {
    'a' <= c <= 'z' || c == 'á' || c == 'é' || c == 'í' || c == 'ó' || c == 'ú' || c == 'ñ'
  }

  /**
   * The characters `\w` matches, exact on the Latin-1 range: letters, digits
   * and other numerals (`ª`, `µ`, `º`, `²`, `³`, `¹`, `¼`, `½`, `¾`) and `_`.
   */
  predicate IsWordChar(c: char) {
    || IsLatin1Letter(c)
    || '0' <= c <= '9'
    || c == '_'
    || c == '\U{AA}' || c == '\U{B5}' || c == '\U{BA}'
    || c == '\U{B2}' || c == '\U{B3}' || c == '\U{B9}'
    || ('\U{BC}' <= c <= '\U{BE}')
  }

  /** The end of the run of word characters that starts at `i`. */
  function RunEnd(s: string, i: nat): (j: nat)
    requires i <= |s|
    ensures i <= j <= |s|
    ensures forall k :: i <= k < j ==> IsWordChar(s[k])
    ensures j == |s| || !IsWordChar(s[j])
    decreases |s| - i
  {
    if i < |s| && IsWordChar(s[i]) then RunEnd(s, i + 1) else i
  }

  /** `s[p..q]` is a whole word: a maximal run of word characters, between two `\b`. */
  predicate IsWordAt(s: string, p: nat, q: nat) {
    && p < q <= |s|
    && (p == 0 || !IsWordChar(s[p - 1]))
    && (q == |s| || !IsWordChar(s[q]))
    && (forall k :: p <= k < q ==> IsWordChar(s[k]))
  }

  /** A whole word that starts at `p` ends where the run of word characters from `p` ends. */
  lemma WordEndsAtRunEnd(s: string, p: nat, q: nat)
    requires IsWordAt(s, p, q)
    ensures q == RunEnd(s, p)
  {
  }

  /** What the pattern accepts between its two `\b`: four or more letters of the class. */
  predicate FitsPattern(w: string) {
    |w| >= 4 && forall k :: 0 <= k < |w| ==> IsPatternLetter(w[k])
  }

  /** A match of the pattern starts at `p`: a whole word starts there and fits the pattern. */
  predicate EmpiezaCoincidencia(s: string, p: nat) {
    && p < |s|
    && (p == 0 || !IsWordChar(s[p - 1]))
    && IsWordChar(s[p])
    && FitsPattern(s[p..RunEnd(s, p)])
  }

  /**
   * Where the matches of the pattern start in `s[i..]`, for an `i` that is not
   * inside a word: the scan of `re.findall`, left to right. Every position is
   * the start of a match, and the positions strictly increase, so none is
   * listed twice.
   */
  function PosicionesCoincidencia(s: string, i: nat): (ps: seq<nat>)
    requires i <= |s|
    requires i == 0 || !IsWordChar(s[i - 1])
    ensures forall k :: 0 <= k < |ps| ==> i <= ps[k] && EmpiezaCoincidencia(s, ps[k])
    ensures forall k, l :: 0 <= k < l < |ps| ==> ps[k] < ps[l]
    decreases |s| - i
  {
    if i == |s| then []
    else if !IsWordChar(s[i]) then PosicionesCoincidencia(s, i + 1)
    else
      var j := RunEnd(s, i);
      var rest := if j == |s| then [] else PosicionesCoincidencia(s, j + 1);
      if FitsPattern(s[i..j]) then [i] + rest else rest
  }

  /** Conversely, every start of a match in `s[i..]` is listed. */
  lemma {:induction false} PosicionesCompletas(s: string, i: nat, p: nat)
    requires i <= p
    requires i <= |s| && (i == 0 || !IsWordChar(s[i - 1]))
    requires EmpiezaCoincidencia(s, p)
    ensures p in PosicionesCoincidencia(s, i)
    decreases |s| - i
  {
    if !IsWordChar(s[i]) {
      PosicionesCompletas(s, i + 1, p);
    } else if p != i {
      PosicionesCompletas(s, RunEnd(s, i) + 1, p);
    }
  }

  /**
   * The matches of the pattern in `s[i..]`: the `k`-th match is the whole
   * word that starts at the `k`-th match position, so the matches come in
   * text order and a word that occurs several times is matched each time.
   */
  function MatchesFrom(s: string, i: nat): (r: seq<string>)
    requires i <= |s|
    requires i == 0 || !IsWordChar(s[i - 1])
    ensures |r| == |PosicionesCoincidencia(s, i)|
    ensures forall k :: 0 <= k < |r| ==>
      var p := PosicionesCoincidencia(s, i)[k];
      IsWordAt(s, p, RunEnd(s, p)) && r[k] == s[p..RunEnd(s, p)] && FitsPattern(r[k])
  {
    var ps := PosicionesCoincidencia(s, i);
    seq(|ps|, k requires 0 <= k < |ps| => s[ps[k]..RunEnd(s, ps[k])])
  }

  /**
   * Every whole word of `s[i..]` that fits the pattern is matched, exactly at
   * the place in the list that its position gives it.
   */
  lemma MatchesFromComplete(s: string, i: nat, p: nat, q: nat)
    requires i <= p
    requires i <= |s| && (i == 0 || !IsWordChar(s[i - 1]))
    requires IsWordAt(s, p, q) && FitsPattern(s[p..q])
    ensures exists k :: 0 <= k < |MatchesFrom(s, i)| && PosicionesCoincidencia(s, i)[k] == p && MatchesFrom(s, i)[k] == s[p..q]
  {
    WordEndsAtRunEnd(s, p, q);
    PosicionesCompletas(s, i, p);
    var ps := PosicionesCoincidencia(s, i);
    var k :| 0 <= k < |ps| && ps[k] == p;
    assert MatchesFrom(s, i)[k] == s[p..q];
  }

  /** `re.findall` of the keyword pattern over `s`. */
  function RegexMatches(s: string): seq<string> {
    MatchesFrom(s, 0)
  }

  /** The words that are dropped from the keywords. */
  const STOP_WORDS: set<string> := {
    "el", "la", "los", "las", "un", "una", "de", "del", "en", "con", "para", "por", "que",
    "y", "o", "a", "se", "son", "es", "esta", "esto", "necesitamos", "necesito", "queremos"
  }

  /** `xs` is `ys` with some elements left out, the rest in their order. */
  predicate IsSubsequence(xs: seq<string>, ys: seq<string>)
    decreases |ys|
  {
    xs == [] || (ys != [] && if xs[0] == ys[0] then IsSubsequence(xs[1..], ys[1..]) else IsSubsequence(xs, ys[1..]))
  }

  /**
   * `[p for p in palabras if p not in stop_words]`: every word that is not a
   * stop word is kept as many times as it occurs, stop words never, and the
   * kept words stay in their order.
   */
  function FiltrarVacias(palabras: seq<string>): (r: seq<string>)
    ensures forall w :: multiset(r)[w] == if w in STOP_WORDS then 0 else multiset(palabras)[w]
    ensures IsSubsequence(r, palabras)
    decreases |palabras|
  {
    if palabras == [] then []
    else
      var rest := FiltrarVacias(palabras[1..]);
      assert palabras == [palabras[0]] + palabras[1..];
      if palabras[0] in STOP_WORDS then rest
      else
        assert ([palabras[0]] + rest)[1..] == rest;
        [palabras[0]] + rest
  }

  /**
   * `_extraer_palabras_clave`: the whole words of the lowered need that are
   * four or more letters of the class, without the stop words, in their order
   * and with repetitions kept.
   */
  function ExtraerPalabrasClave(necesidad: string): seq<string> {
    FiltrarVacias(RegexMatches(Lower(necesidad)))
  }

  /**
   * Every keyword is a whole word of the lowered need, four or more letters
   * of the class and not a stop word; the keywords keep the order of the
   * matches, and each one is kept as many times as it is matched.
   */
  lemma ExtraerPalabrasClaveSound(necesidad: string)
    ensures var r := ExtraerPalabrasClave(necesidad);
      && (forall w :: w in r ==> FitsPattern(w) && w !in STOP_WORDS)
      && (forall w :: w in r ==> exists p: nat, q: nat :: IsWordAt(Lower(necesidad), p, q) && Lower(necesidad)[p..q] == w)
      && IsSubsequence(r, RegexMatches(Lower(necesidad)))
      && (forall w :: w !in STOP_WORDS ==> multiset(r)[w] == multiset(RegexMatches(Lower(necesidad)))[w])
  {
    var s := Lower(necesidad);
    var ms := RegexMatches(s);
    var r := ExtraerPalabrasClave(necesidad);
    forall w | w in r
      ensures FitsPattern(w) && w !in STOP_WORDS
      ensures exists p: nat, q: nat :: IsWordAt(s, p, q) && s[p..q] == w
    {
      assert multiset(r)[w] > 0;
      assert w in multiset(ms);
      var k :| 0 <= k < |ms| && ms[k] == w;
      var p := PosicionesCoincidencia(s, 0)[k];
      assert IsWordAt(s, p, RunEnd(s, p)) && s[p..RunEnd(s, p)] == w;
    }
  }

  /**
   * Conversely, every whole word of the lowered need that fits the pattern
   * and is not a stop word is extracted, once for each place it is matched.
   */
  lemma ExtraerPalabrasClaveComplete(necesidad: string, p: nat, q: nat)
    requires IsWordAt(Lower(necesidad), p, q)
    requires FitsPattern(Lower(necesidad)[p..q]) && Lower(necesidad)[p..q] !in STOP_WORDS
    ensures Lower(necesidad)[p..q] in ExtraerPalabrasClave(necesidad)
    ensures multiset(ExtraerPalabrasClave(necesidad))[Lower(necesidad)[p..q]]
            == multiset(RegexMatches(Lower(necesidad)))[Lower(necesidad)[p..q]]
  {
    var s := Lower(necesidad);
    MatchesFromComplete(s, 0, p, q);
    assert s[p..q] in RegexMatches(s);
    assert multiset(ExtraerPalabrasClave(necesidad))[s[p..q]] > 0;
  }

  // ---------------------------------------------------------------------------
  // Section builders
  // ---------------------------------------------------------------------------

  const ETIQUETA_NECESIDAD: string := "**Necesidad específica identificada:** "
  const ETIQUETA_PALABRAS: string := "**Palabras clave detectadas:** "

  /** The keywords the problem section lists: the first ten extracted. */
  function PalabrasListadas(necesidad: string): seq<string> {
    Take(ExtraerPalabrasClave(necesidad), 10)
  }

  /** The problem section lists the first ten keywords, or all of them when there are fewer. */
  lemma PalabrasListadasPrimeras(necesidad: string)
    ensures var e := ExtraerPalabrasClave(necesidad);
      var r := PalabrasListadas(necesidad);
      |r| == (if |e| < 10 then |e| else 10) && r == e[..|r|]
  {
  }

  /** The comma-separated list the problem section ends with. */
  function ListaPalabras(necesidad: string): string {
    Join(", ", PalabrasListadas(necesidad))
  }

  /**
   * `_identificar_problema`: the template's base problem, then the need
   * verbatim after its label, then the listed keywords after theirs.
   */
  function IdentificarProblema(necesidad: string, t: TemplatePropuesta): string {
    t.problemaBase + "\n\n" + ETIQUETA_NECESIDAD + necesidad + "\n\n" + ETIQUETA_PALABRAS + ListaPalabras(necesidad)
  }

  /**
   * The problem section starts with the template's base problem, quotes the
   * need verbatim after its label, and ends with the keyword list.
   */
  lemma IdentificarProblemaForma(necesidad: string, t: TemplatePropuesta)
    ensures var r := IdentificarProblema(necesidad, t);
      && |t.problemaBase| <= |r| && r[..|t.problemaBase|] == t.problemaBase
      && OccursAt(r, ETIQUETA_NECESIDAD + necesidad, |t.problemaBase| + 2)
      && |ListaPalabras(necesidad)| <= |r| && r[|r| - |ListaPalabras(necesidad)|..] == ListaPalabras(necesidad)
  {
    ProblemaPartes(t.problemaBase, necesidad, ListaPalabras(necesidad));
  }

  /** The three parts of a problem section, for any base text, need and keyword list. */
  lemma ProblemaPartes(base: string, necesidad: string, lista: string)
    ensures var r := base + "\n\n" + ETIQUETA_NECESIDAD + necesidad + "\n\n" + ETIQUETA_PALABRAS + lista;
      && |base| <= |r| && r[..|base|] == base
      && OccursAt(r, ETIQUETA_NECESIDAD + necesidad, |base| + 2)
      && |lista| <= |r| && r[|r| - |lista|..] == lista
  {
    var r := base + "\n\n" + ETIQUETA_NECESIDAD + necesidad + "\n\n" + ETIQUETA_PALABRAS + lista;
    assert r[|base| + 2..|base| + 2 + |ETIQUETA_NECESIDAD + necesidad|] == ETIQUETA_NECESIDAD + necesidad;
  }

  /** The keyword list at the end of the problem section splits back into the listed keywords. */
  lemma ListaPalabrasRoundTrip(necesidad: string)
    requires PalabrasListadas(necesidad) != []
    ensures Split(ListaPalabras(necesidad), ", ") == PalabrasListadas(necesidad)
  {
    var ws := PalabrasListadas(necesidad);
    ExtraerPalabrasClaveSound(necesidad);
    forall k | 0 <= k < |ws| ensures ',' !in ws[k] {
      assert ws[k] in ExtraerPalabrasClave(necesidad);
      assert FitsPattern(ws[k]);
    }
    SplitJoin(", ", ws);
  }

  const ENCABEZADO_COMPONENTES: string := "**Componentes específicos sugeridos:**\n"

  /** The component block per area, keyed by area identifier. */
  const COMPONENTES: map<string, string> := map[
    "fintech" := "- Procesador de pagos en tiempo real\n- Módulo de KYC/AML\n- Dashboard de análisis financiero",
    "app_moviles" := "- App móvil nativa/multiplataforma\n- Backend API REST/GraphQL\n- Sistema de notificaciones push",
    "blockchain" := "- Smart contracts para automatización\n- Sistema de tokens\n- Oráculos para datos externos",
    "arquitectura" := "- Contenedores y orquestación\n- API Gateway\n- Sistema de observabilidad",
    "seguros" := "- Motor de tarificación\n- Workflow de reclamos\n- Portal de autoservicio",
    "medica" := "- Sistema de historial clínico (EHR)\n- Módulo de telemedicina\n- Portal de pacientes",
    "telecomunicaciones" := "- OSS/BSS integrado\n- Sistema de provisioning\n- Analytics en tiempo real",
    "transporte" := "- TMS con optimización de rutas\n- Tracking GPS\n- Gestión de flotas",
    "almacenamiento" := "- WMS con RFID\n- Optimización de ubicaciones\n- Sistema de picking automatizado",
    "combustibles" := "- Monitoreo de tanques (ATG)\n- Control de dispensarios\n- Gestión de inventario"
  ]

  /** The line used for an area without a component block. */
  const COMPONENTES_GENERICOS: string := "- Módulos personalizados"

  /** The component block found under `area` in the table `componentes`, or the generic line. */
  function ComponentesDe(componentes: map<string, string>, area: string): (b: string)
    ensures area in componentes ==> b == componentes[area]
    ensures area !in componentes ==> b == COMPONENTES_GENERICOS
  {
    if area in componentes then componentes[area] else COMPONENTES_GENERICOS
  }

  /**
   * `_generar_solucion`: the template's base solution, the components header,
   * and the block found under `t.area` in the component table (the generator
   * passes `COMPONENTES`).
   */
  function GenerarSolucion(necesidad: string, t: TemplatePropuesta, componentes: map<string, string>): string {
    t.solucionBase + "\n\n" + ENCABEZADO_COMPONENTES + ComponentesDe(componentes, t.area)
  }

  /**
   * The solution section starts with the template's base solution and the
   * components header, and ends with the block found under the template's
   * area, or the generic line when there is none.
   */
  lemma GenerarSolucionForma(necesidad: string, t: TemplatePropuesta, componentes: map<string, string>)
    ensures var r := GenerarSolucion(necesidad, t, componentes);
      var head := t.solucionBase + "\n\n" + ENCABEZADO_COMPONENTES;
      && |head| <= |r| && r[..|head|] == head
      && (t.area in componentes ==>
           |componentes[t.area]| <= |r| && r[|r| - |componentes[t.area]|..] == componentes[t.area])
      && (t.area !in componentes ==>
           |COMPONENTES_GENERICOS| <= |r| && r[|r| - |COMPONENTES_GENERICOS|..] == COMPONENTES_GENERICOS)
  {
    var head := t.solucionBase + "\n\n" + ENCABEZADO_COMPONENTES;
    var block := ComponentesDe(componentes, t.area);
    assert (head + block)[..|head|] == head;
    assert (head + block)[|head|..] == block;
  }

  /** `_disenar_arquitectura`: the template's base architecture, whatever the need. */
  function DisenarArquitectura(necesidad: string, t: TemplatePropuesta): (r: string)
    ensures r == t.arquitecturaBase
  {
    t.arquitecturaBase
  }

  /** The extra risks per area, keyed by area identifier. */
  const RIESGOS_PERSONALIZADOS: map<string, seq<string>> := map[
    "fintech" := ["Adaptación al mercado crypto - Mitigación: Monitoreo de tendencias y regulación"],
    "app_moviles" := ["Retención de usuarios - Mitigación: Analytics y engagement features"],
    "blockchain" := ["Adopción por usuarios - Mitigación: UX simplificada y onboarding guiado"]
  ]

  /** The risks `_analizar_riesgos` returns for a template, given the table of extra risks. */
  function RiesgosAnalizados(t: TemplatePropuesta, personalizados: map<string, seq<string>>): seq<string> {
    t.riesgosBase + (if t.area in personalizados then personalizados[t.area] else [])
  }

  /**
   * `_analizar_riesgos`: a copy of the template's base risks, extended with
   * the extra risks found under `t.area` in the table (the generator passes
   * `RIESGOS_PERSONALIZADOS`).
   */
  method AnalizarRiesgos(necesidad: string, t: TemplatePropuesta, personalizados: map<string, seq<string>>)
    returns (riesgos: seq<string>)
    ensures riesgos == RiesgosAnalizados(t, personalizados)
    ensures |t.riesgosBase| <= |riesgos| && riesgos[..|t.riesgosBase|] == t.riesgosBase
    ensures t.area in personalizados ==> riesgos[|t.riesgosBase|..] == personalizados[t.area]
    ensures t.area !in personalizados ==> riesgos == t.riesgosBase
  {
    riesgos := t.riesgosBase;
    if t.area in personalizados {
      riesgos := riesgos + personalizados[t.area];
    }
  }

  /**
   * Both tables are keyed by area identifiers; the extra risks cover three of
   * the ten areas.
   */
  lemma TablasPorIdentificador()
    ensures COMPONENTES.Keys == {"fintech", "app_moviles", "blockchain", "arquitectura", "seguros",
                                 "medica", "telecomunicaciones", "transporte", "almacenamiento", "combustibles"}
    ensures RIESGOS_PERSONALIZADOS.Keys == {"fintech", "app_moviles", "blockchain"}
  {
  }

  /** Every key of both tables starts with a lower-case letter. */
  lemma ClavesMinusculas()
    ensures forall k :: k in COMPONENTES ==> |k| > 0 && 'a' <= k[0] <= 'z'
    ensures forall k :: k in RIESGOS_PERSONALIZADOS ==> |k| > 0 && 'a' <= k[0] <= 'z'
  {
  }

  /** Every template's `area` is a display name starting with a capital letter, and it has four base risks. */
  ghost predicate NombresVisibles(reg: Registro) {
    forall i :: 0 <= i < |reg| ==>
      |reg[i].1.area| > 0 && 'A' <= reg[i].1.area[0] <= 'Z' && |reg[i].1.riesgosBase| == 4
  }

  /** The published registry names its areas for display. */
  lemma TemplatesNombresVisibles()
    ensures NombresVisibles(TEMPLATES)
  {
  }

  /**
   * The tables are looked up with the display name, never with an
   * identifier, so no template of such a registry finds a component block or
   * extra risks: the solution always ends with the generic line and the
   * risks are the four base risks.
   */
  lemma AreaNoEsClave(reg: Registro, t: TemplatePropuesta)
    requires NombresVisibles(reg) && IsRegistered(reg, t)
    ensures t.area !in COMPONENTES && t.area !in RIESGOS_PERSONALIZADOS
    ensures ComponentesDe(COMPONENTES, t.area) == COMPONENTES_GENERICOS
    ensures RiesgosAnalizados(t, RIESGOS_PERSONALIZADOS) == t.riesgosBase && |t.riesgosBase| == 4
  {
    var i :| 0 <= i < |reg| && reg[i].1 == t;
    assert 'A' <= t.area[0] <= 'Z';
    ClavesMinusculas();
  }

  // ---------------------------------------------------------------------------
  // Rendering
  // ---------------------------------------------------------------------------

  /** The separator between a risk and its mitigation. */
  const SEPARADOR_RIESGO: string := " - "

  /**
   * One risk as a markdown item: the text before the first separator in bold,
   * then the piece after it (up to a second separator, if any), or nothing
   * when there is no separator.
   */
  function LineaRiesgo(riesgo: string): string {
    var partes := Split(riesgo, SEPARADOR_RIESGO);
    "- **" + partes[0] + "**: " + (if Contains(riesgo, SEPARADOR_RIESGO) then partes[1] else "")
  }

  /** A risk without the separator renders in bold with nothing after it. */
  lemma LineaRiesgoSinSeparador(riesgo: string)
    requires !Contains(riesgo, SEPARADOR_RIESGO)
    ensures LineaRiesgo(riesgo) == "- **" + riesgo + "**: "
  {
  }

  /**
   * In `name + " - " + rest`, the first separator is the one right after
   * `name` exactly when no separator starts inside `name`, that is when
   * `name + " -"` holds none.
   */
  lemma FirstSeparator(name: string, rest: string)
    ensures Find(name + SEPARADOR_RIESGO + rest, SEPARADOR_RIESGO) == Some(|name|)
            <==> !Contains(name + " -", SEPARADOR_RIESGO)
  {
    var s := name + SEPARADOR_RIESGO + rest;
    var t := name + " -";
    assert t == s[..|name| + 2];
    assert s[|name|..|name| + 3] == SEPARADOR_RIESGO;
    assert OccursAt(s, SEPARADOR_RIESGO, |name|);
    forall j: nat | j < |name|
      ensures OccursAt(s, SEPARADOR_RIESGO, j) <==> OccursAt(t, SEPARADOR_RIESGO, j)
    {
      assert s[j..j + 3] == t[j..j + 3];
    }
    if Contains(t, SEPARADOR_RIESGO) {
      var j := Find(t, SEPARADOR_RIESGO).value;
      assert OccursAt(s, SEPARADOR_RIESGO, j);
    }
  }

  /** A risk written as `name - mitigation` renders as `- **name**: mitigation`. */
  lemma LineaRiesgoFormato(name: string, mitigacion: string)
    requires !Contains(name + " -", SEPARADOR_RIESGO) && !Contains(mitigacion, SEPARADOR_RIESGO)
    ensures LineaRiesgo(name + SEPARADOR_RIESGO + mitigacion) == "- **" + name + "**: " + mitigacion
  {
    FirstSeparator(name, mitigacion);
    SplitFirst(name, SEPARADOR_RIESGO, mitigacion);
  }

  /** Text after a second separator is dropped. */
  lemma LineaRiesgoDescarta(name: string, mitigacion: string, resto: string)
    requires !Contains(name + " -", SEPARADOR_RIESGO) && !Contains(mitigacion + " -", SEPARADOR_RIESGO)
    ensures LineaRiesgo(name + SEPARADOR_RIESGO + mitigacion + SEPARADOR_RIESGO + resto)
            == "- **" + name + "**: " + mitigacion
  {
    var tail := mitigacion + SEPARADOR_RIESGO + resto;
    var s := name + SEPARADOR_RIESGO + tail;
    assert s == name + SEPARADOR_RIESGO + mitigacion + SEPARADOR_RIESGO + resto;
    FirstSeparator(name, tail);
    SplitFirst(name, SEPARADOR_RIESGO, tail);
    FirstSeparator(mitigacion, resto);
    SplitFirst(mitigacion, SEPARADOR_RIESGO, resto);
  }

  /** A risk without a line break renders as one line. */
  lemma LineaRiesgoUnaLinea(riesgo: string)
    requires '\n' !in riesgo
    ensures '\n' !in LineaRiesgo(riesgo)
  {
    var partes := Split(riesgo, SEPARADOR_RIESGO);
    if '\n' in partes[0] {
      SplitPiecesFrom(riesgo, SEPARADOR_RIESGO, 0, '\n');
    }
    if Contains(riesgo, SEPARADOR_RIESGO) && '\n' in partes[1] {
      SplitPiecesFrom(riesgo, SEPARADOR_RIESGO, 1, '\n');
    }
  }

  /** The rendered risk items, one per risk, in order. */
  function LineasRiesgo(riesgos: seq<string>): seq<string> {
    seq(|riesgos|, i requires 0 <= i < |riesgos| => LineaRiesgo(riesgos[i]))
  }

  /** The body of the risks section: the items joined by line breaks. */
  function SeccionRiesgos(riesgos: seq<string>): string {
    Join("\n", LineasRiesgo(riesgos))
  }

  /** When no risk holds a line break, the risks section has exactly one line per risk. */
  lemma UnaLineaPorRiesgo(riesgos: seq<string>)
    requires riesgos != []
    requires forall i :: 0 <= i < |riesgos| ==> '\n' !in riesgos[i]
    ensures Split(SeccionRiesgos(riesgos), "\n") == LineasRiesgo(riesgos)
  {
    var ls := LineasRiesgo(riesgos);
    forall i | 0 <= i < |ls| ensures "\n"[0] !in ls[i] {
      LineaRiesgoUnaLinea(riesgos[i]);
    }
    SplitJoin("\n", ls);
  }

  const TITULO: string := "# PROPUESTA TÉCNICA\n\n## Área: "
  const SECCION_1: string := "\n\n---\n\n## 1. PROBLEMA IDENTIFICADO\n\n"
  const SECCION_2: string := "\n\n---\n\n## 2. SOLUCIÓN TÉCNICA SUGERIDA\n\n"
  const SECCION_3: string := "\n\n---\n\n## 3. ARQUITECTURA GENERAL (ALTO NIVEL)\n\n"
  const TECNOLOGIAS: string := "\n\n### Tecnologías Recomendadas\n"
  const SECCION_4: string := "\n\n---\n\n## 4. PRINCIPALES RIESGOS\n\n"
  const PIE: string := "\n\n---\n\n*Propuesta generada automáticamente - Revisar y personalizar según requisitos específicos*\n"

  /** The pieces of the rendered document, in order. */
  function PiezasPropuesta(problema: string, solucion: string, arquitectura: string,
                           riesgos: seq<string>, t: TemplatePropuesta): seq<string>
  {
    [ TITULO + t.area,
      SECCION_1 + problema,
      SECCION_2 + solucion,
      SECCION_3 + arquitectura,
      TECNOLOGIAS + Join(", ", t.tecnologias),
      SECCION_4 + SeccionRiesgos(riesgos),
      PIE ]
  }

  /** Sections 1 to 4 of a document built from `ps`, each with its content right after it, in order. */
  lemma SeccionesEnOrden(ps: seq<string>)
    requires |ps| == 7
    requires forall k :: 0 <= k < 5 ==> ps[k] != []
    ensures exists o1: nat, o2: nat, o3: nat, o4: nat ::
      (&& 0 < o1 < o2 < o3 < o4
       && OccursAt(Concat(ps), ps[1], o1) && OccursAt(Concat(ps), ps[2], o2)
       && OccursAt(Concat(ps), ps[3], o3) && OccursAt(Concat(ps), ps[5], o4))
  {
    ConcatAt(ps, 1);
    ConcatAt(ps, 2);
    ConcatAt(ps, 3);
    ConcatAt(ps, 5);
    ConcatOrdered(ps, 0, 1);
    ConcatOrdered(ps, 1, 2);
    ConcatOrdered(ps, 2, 3);
    ConcatOrdered(ps, 3, 5);
    assert ps[..0] == [];
    var o1, o2, o3, o4 := |Concat(ps[..1])|, |Concat(ps[..2])|, |Concat(ps[..3])|, |Concat(ps[..5])|;
    assert OccursAt(Concat(ps), ps[1], o1) && OccursAt(Concat(ps), ps[2], o2);
    assert OccursAt(Concat(ps), ps[3], o3) && OccursAt(Concat(ps), ps[5], o4);
  }

  /**
   * `_formatear_propuesta`: the document starts with the title and the area
   * heading, then sections 1 to 4 in this order, each heading immediately
   * followed by its content, and ends with the closing disclaimer.
   */
  function FormatearPropuesta(problema: string, solucion: string, arquitectura: string,
                              riesgos: seq<string>, t: TemplatePropuesta): string
  {
    Concat(PiezasPropuesta(problema, solucion, arquitectura, riesgos, t))
  }

  /** The document starts with the title and the area heading. */
  lemma FormatearPropuestaTitulo(problema: string, solucion: string, arquitectura: string,
                                 riesgos: seq<string>, t: TemplatePropuesta)
    ensures var r := FormatearPropuesta(problema, solucion, arquitectura, riesgos, t);
      |TITULO + t.area| <= |r| && r[..|TITULO + t.area|] == TITULO + t.area
  {
    var ps := PiezasPropuesta(problema, solucion, arquitectura, riesgos, t);
    ConcatAt(ps, 0);
    assert ps[..0] == [];
  }

  /** The document ends with the closing disclaimer. */
  lemma FormatearPropuestaPie(problema: string, solucion: string, arquitectura: string,
                              riesgos: seq<string>, t: TemplatePropuesta)
    ensures var r := FormatearPropuesta(problema, solucion, arquitectura, riesgos, t);
      |PIE| <= |r| && r[|r| - |PIE|..] == PIE
  {
    var ps := PiezasPropuesta(problema, solucion, arquitectura, riesgos, t);
    ConcatAt(ps, 6);
    assert ps[7..] == [];
  }

  /**
   * Sections 1 to 4 appear in this order, each heading immediately followed
   * by its content, after the title.
   */
  lemma FormatearPropuestaSecciones(problema: string, solucion: string, arquitectura: string,
                                    riesgos: seq<string>, t: TemplatePropuesta)
    ensures var r := FormatearPropuesta(problema, solucion, arquitectura, riesgos, t);
      exists o1: nat, o2: nat, o3: nat, o4: nat ::
        (&& 0 < o1 < o2 < o3 < o4
         && OccursAt(r, SECCION_1 + problema, o1) && OccursAt(r, SECCION_2 + solucion, o2)
         && OccursAt(r, SECCION_3 + arquitectura, o3) && OccursAt(r, SECCION_4 + SeccionRiesgos(riesgos), o4))
  {
    var ps := PiezasPropuesta(problema, solucion, arquitectura, riesgos, t);
    SeccionesEnOrden(ps);
    var r := Concat(ps);
    var o1: nat, o2: nat, o3: nat, o4: nat :| && 0 < o1 < o2 < o3 < o4
      && OccursAt(r, ps[1], o1) && OccursAt(r, ps[2], o2) && OccursAt(r, ps[3], o3) && OccursAt(r, ps[5], o4);
    assert OccursAt(r, SECCION_1 + problema, o1) && OccursAt(r, SECCION_2 + solucion, o2);
    assert OccursAt(r, SECCION_3 + arquitectura, o3) && OccursAt(r, SECCION_4 + SeccionRiesgos(riesgos), o4);
    assert r == FormatearPropuesta(problema, solucion, arquitectura, riesgos, t);
  }

  // ---------------------------------------------------------------------------
  // Execution trace
  // ---------------------------------------------------------------------------

  /** A metadata value: the source stores ints, strings, lists of strings and `None`. */
  datatype Valor = Nulo | Entero(n: int) | Texto(s: string) | Lista(items: seq<string>)

  /** A one-entry dict `{k: v}`. */
  function Dict1(k: string, v: Valor): (d: Dict<string, Valor>)
    ensures d.Valid() && d.keys == [k] && d.vals == map[k := v]
  {
    Dict([k], map[k := v])
  }

  /** A trace step: the state's string value, a detail and the metadata dict (timestamps left out). */
  datatype Paso = Paso(estado: string, detalle: string, metadata: Dict<string, Valor>)

  /** A trace error: kind, message and context (timestamps left out). */
  datatype RegistroError = RegistroError(tipo: string, mensaje: string, contexto: string)

  /** A clock reading, in microseconds. */
  type Instante = int

  /**
   * `int((fin - inicio).total_seconds() * 1000)`: whole milliseconds between
   * two readings, truncated toward zero.
   */
  function DuracionMs(inicio: Instante, fin: Instante): (ms: int)
    ensures inicio <= fin ==> 0 <= ms && ms * 1000 <= fin - inicio < (ms + 1) * 1000
    ensures fin < inicio ==> ms <= 0 && (-ms) * 1000 <= inicio - fin < (-ms + 1) * 1000
  {
    var d := fin - inicio;
    if d >= 0 then d / 1000 else -((-d) / 1000)
  }

  /** What `obtener_resumen` reports. */
  datatype Resumen = Resumen(inicio: Option<Instante>, fin: Option<Instante>, duracionMs: int,
                             totalPasos: nat, totalErrores: nat, exitoso: bool)

  /** The execution trace: an append-only record of steps and errors, with start, end and duration. */
  class Trazabilidad {
    var pasos: seq<Paso>
    var errores: seq<RegistroError>
    var inicio: Option<Instante>
    var fin: Option<Instante>
    var duracionMs: int

    constructor()
      ensures pasos == [] && errores == [] && inicio == None && fin == None && duracionMs == 0
    {
      pasos := [];
      errores := [];
      inicio := None;
      fin := None;
      duracionMs := 0;
    }

    /** `agregar_paso`: appends one step; an absent metadata dict is stored as `{}`. */
    method AgregarPaso(estado: EstadoEjecucion, detalle: string, metadata: Option<Dict<string, Valor>>)
      modifies this
      ensures pasos == old(pasos) + [Paso(estado.Valor(), detalle, metadata.GetOr(Empty()))]
      ensures errores == old(errores) && inicio == old(inicio) && fin == old(fin) && duracionMs == old(duracionMs)
    {
      pasos := pasos + [Paso(estado.Valor(), detalle, metadata.GetOr(Empty()))];
    }

    /** `agregar_error`: appends one error. */
    method AgregarError(tipo: string, mensaje: string, contexto: string := "")
      modifies this
      ensures errores == old(errores) + [RegistroError(tipo, mensaje, contexto)]
      ensures pasos == old(pasos) && inicio == old(inicio) && fin == old(fin) && duracionMs == old(duracionMs)
    {
      errores := errores + [RegistroError(tipo, mensaje, contexto)];
    }

    /** `iniciar`: records the start reading. */
    method Iniciar(ahora: Instante)
      modifies this
      ensures inicio == Some(ahora)
      ensures pasos == old(pasos) && errores == old(errores) && fin == old(fin) && duracionMs == old(duracionMs)
    {
      inicio := Some(ahora);
    }

    /** `finalizar`: records the end reading and, when started, the duration since the start. */
    method Finalizar(ahora: Instante)
      modifies this
      ensures fin == Some(ahora)
      ensures old(inicio).Some? ==> duracionMs == DuracionMs(old(inicio).value, ahora)
      ensures old(inicio).None? ==> duracionMs == old(duracionMs)
      ensures pasos == old(pasos) && errores == old(errores) && inicio == old(inicio)
    {
      fin := Some(ahora);
      if inicio.Some? {
        duracionMs := DuracionMs(inicio.value, ahora);
      }
    }

    /** `obtener_resumen`: the counts, and success exactly when no error was recorded. */
    function ObtenerResumen(): (r: Resumen)
      reads this
      ensures r.totalPasos == |pasos| && r.totalErrores == |errores|
      ensures r.exitoso <==> errores == []
      ensures r.inicio == inicio && r.fin == fin && r.duracionMs == duracionMs
    {
      Resumen(inicio, fin, duracionMs, |pasos|, |errores|, |errores| == 0)
    }
  }

  // ---------------------------------------------------------------------------
  // The pipeline
  // ---------------------------------------------------------------------------

  /** The result of one run. */
  datatype ResultadoPropuesta = ResultadoPropuesta(
    propuesta: string,
    areaDetectada: string,
    inputs: Dict<string, Valor>,
    outputs: Dict<string, Valor>,
    exitoso: bool,
    trazabilidad: Option<Trazabilidad>,
    error: Option<string>
  )

  /** The two clock readings a run takes: at `iniciar` and at `finalizar`. */
  datatype Reloj = Reloj(inicio: Instante, fin: Instante)

  /** The shortest accepted need, after stripping whitespace. */
  const LONGITUD_MINIMA: nat := 10

  const MENSAJE_LONGITUD: string := "La descripción debe tener al menos 10 caracteres"

  /** The forced area is used when it is given, non-empty and one of `areas`. */
  predicate AreaForzada(areaEspecifica: Option<string>, areas: seq<string>) {
    areaEspecifica.Some? && areaEspecifica.value != [] && areaEspecifica.value in areas
  }

  /** The first step of every run. */
  function PasoInicio(necesidad: string): Paso {
    Paso(Iniciado.Valor(), "Inicialización del agente generador", Dict1("necesidad_length", Entero(|necesidad|)))
  }

  /** The detail of the second area-detection step. */
  function DetalleArea(area: string, forzada: bool): string {
    (if forzada then "Área forzada por el usuario: " else "Área detectada automáticamente: ") + area
  }

  /** The steps that analyse the need and settle the area: the area-detection state is logged twice. */
  function PasosDeteccion(necesidad: string, area: string, forzada: bool): seq<Paso> {
    [ Paso(AnalizandoEntrada.Valor(), "Analizando entrada del usuario", Dict1("necesidad", Texto(Take(necesidad, 100) + "..."))),
      Paso(DetectandoArea.Valor(), "Detectando área de negocio", Empty()),
      Paso(DetectandoArea.Valor(), DetalleArea(area, forzada), Dict1("area", Texto(area))) ]
  }

  /** The steps that build the four sections and the document. */
  function PasosComposicion(area: string): seq<Paso> {
    [ Paso(IdentificandoProblema.Valor(), "Identificando problema específico", Dict1("template", Texto(area))),
      Paso(GenerandoSolucion.Valor(), "Generando solución técnica", Empty()),
      Paso(DisenandoArquitectura.Valor(), "Diseñando arquitectura de alto nivel", Empty()),
      Paso(AnalizandoRiesgos.Valor(), "Analizando principales riesgos", Empty()),
      Paso(GenerandoOutput.Valor(), "Generando propuesta final", Empty()) ]
  }

  /** The last step of a successful run, carrying the duration. */
  function PasoFinal(duracionMs: int): Paso {
    Paso(Completado.Valor(), "Propuesta generada exitosamente", Dict1("duracion_ms", Entero(duracionMs)))
  }

  /** The steps a successful run records, in order. */
  function PasosExito(necesidad: string, area: string, forzada: bool, duracionMs: int): seq<Paso> {
    [PasoInicio(necesidad)] + PasosDeteccion(necesidad, area, forzada) + PasosComposicion(area) + [PasoFinal(duracionMs)]
  }

  /**
   * A successful run records ten steps, in the order of the stages, with the
   * area-detection state twice; the last step carries the duration.
   */
  lemma PasosExitoDiez(necesidad: string, area: string, forzada: bool, duracionMs: int)
    ensures var ps := PasosExito(necesidad, area, forzada, duracionMs);
      && |ps| == 10
      && ps[0].estado == Iniciado.Valor() && ps[1].estado == AnalizandoEntrada.Valor()
      && ps[2].estado == DetectandoArea.Valor() && ps[3].estado == DetectandoArea.Valor()
      && ps[4].estado == IdentificandoProblema.Valor() && ps[5].estado == GenerandoSolucion.Valor()
      && ps[6].estado == DisenandoArquitectura.Valor() && ps[7].estado == AnalizandoRiesgos.Valor()
      && ps[8].estado == GenerandoOutput.Valor() && ps[9].estado == Completado.Valor()
      && ps[9].metadata.vals == map["duracion_ms" := Entero(duracionMs)]
  {
  }

  /** The outputs dict of a successful run. */
  function Salidas(problema: string, solucion: string, arquitectura: string,
                   riesgos: seq<string>, tecnologias: seq<string>): (d: Dict<string, Valor>)
    ensures d.Valid() && d.keys == ["problema", "solucion", "arquitectura", "riesgos", "tecnologias"]
    ensures d.vals["problema"] == Texto(problema) && d.vals["solucion"] == Texto(solucion)
    ensures d.vals["arquitectura"] == Texto(arquitectura)
    ensures d.vals["riesgos"] == Lista(riesgos) && d.vals["tecnologias"] == Lista(tecnologias)
  {
    Dict(["problema", "solucion", "arquitectura", "riesgos", "tecnologias"],
         map["problema" := Texto(problema), "solucion" := Texto(solucion), "arquitectura" := Texto(arquitectura),
             "riesgos" := Lista(riesgos), "tecnologias" := Lista(tecnologias)])
  }

  /** The outputs of a successful run that used template `t`. */
  function SalidasDe(necesidad: string, t: TemplatePropuesta,
                     componentes: map<string, string>, personalizados: map<string, seq<string>>): Dict<string, Valor>
  {
    Salidas(IdentificarProblema(necesidad, t), GenerarSolucion(necesidad, t, componentes), DisenarArquitectura(necesidad, t),
            RiesgosAnalizados(t, personalizados), t.tecnologias)
  }

  /** The document of a successful run that used template `t`. */
  function PropuestaDe(necesidad: string, t: TemplatePropuesta,
                       componentes: map<string, string>, personalizados: map<string, seq<string>>): string
  {
    FormatearPropuesta(IdentificarProblema(necesidad, t), GenerarSolucion(necesidad, t, componentes),
                       DisenarArquitectura(necesidad, t), RiesgosAnalizados(t, personalizados), t)
  }

  /** The inputs dict of a successful run. */
  function Entradas(necesidad: string, areaEspecifica: Option<string>): (d: Dict<string, Valor>)
    ensures d.Valid() && d.keys == ["necesidad", "area_especifica"]
    ensures d.vals["necesidad"] == Texto(necesidad)
    ensures d.vals["area_especifica"] == if areaEspecifica.Some? then Texto(areaEspecifica.value) else Nulo
  {
    Dict(["necesidad", "area_especifica"],
         map["necesidad" := Texto(necesidad),
             "area_especifica" := if areaEspecifica.Some? then Texto(areaEspecifica.value) else Nulo])
  }

  /** The generator: holds the registry, its area identifiers and the two per-area tables. */
  class GeneradorPropuestas {
    const templates: Registro
    const areas: seq<string>
    const componentes: map<string, string>
    const riesgosPersonalizados: map<string, seq<string>>

    /** The registry behaves as a dict and `areas` lists its identifiers. */
    ghost predicate Valid() {
      RegistroValido(templates) && areas == ListarAreas(templates)
    }

    constructor()
      ensures templates == TEMPLATES && areas == ListarAreas(TEMPLATES)
      ensures componentes == COMPONENTES && riesgosPersonalizados == RIESGOS_PERSONALIZADOS
      ensures Valid()
    {
      templates := TEMPLATES;
      areas := ListarAreas(TEMPLATES);
      componentes := COMPONENTES;
      riesgosPersonalizados := RIESGOS_PERSONALIZADOS;
      TemplatesValido();
    }

    /** The analysis and area-detection stage: the forced area when usable, the detected one otherwise. */
    method Detectar(necesidad: string, areaEspecifica: Option<string>, traza: Trazabilidad) returns (area: string)
      requires Valid()
      modifies traza
      ensures AreaForzada(areaEspecifica, areas) ==> area == areaEspecifica.value
      ensures !AreaForzada(areaEspecifica, areas) ==> IsBestArea(templates, Lower(necesidad), area)
      ensures area == GENERAL || area in areas
      ensures traza.pasos == old(traza.pasos) + PasosDeteccion(necesidad, area, AreaForzada(areaEspecifica, areas))
      ensures traza.errores == old(traza.errores) && traza.inicio == old(traza.inicio)
      ensures traza.fin == old(traza.fin) && traza.duracionMs == old(traza.duracionMs)
    {
      ghost var previos := traza.pasos;
      traza.AgregarPaso(AnalizandoEntrada, "Analizando entrada del usuario", Some(Dict1("necesidad", Texto(Take(necesidad, 100) + "..."))));
      traza.AgregarPaso(DetectandoArea, "Detectando área de negocio", Some(Empty()));
      var forzada := AreaForzada(areaEspecifica, areas);
      if forzada {
        area := areaEspecifica.value;
      } else {
        area := DetectarArea(templates, necesidad);
      }
      traza.AgregarPaso(DetectandoArea, DetalleArea(area, forzada), Some(Dict1("area", Texto(area))));
      var ps := PasosDeteccion(necesidad, area, forzada);
      AnexarTres(previos, ps[0], ps[1], ps[2]);
    }

    /** The composition stage: the four sections from the template, then the document. */
    method Componer(necesidad: string, area: string, template: TemplatePropuesta, traza: Trazabilidad)
      returns (salidas: Dict<string, Valor>, propuesta: string)
      modifies traza
      ensures salidas == SalidasDe(necesidad, template, componentes, riesgosPersonalizados) && propuesta == PropuestaDe(necesidad, template, componentes, riesgosPersonalizados)
      ensures traza.pasos == old(traza.pasos) + PasosComposicion(area)
      ensures traza.errores == old(traza.errores) && traza.inicio == old(traza.inicio)
      ensures traza.fin == old(traza.fin) && traza.duracionMs == old(traza.duracionMs)
    {
      ghost var previos := traza.pasos;
      traza.AgregarPaso(IdentificandoProblema, "Identificando problema específico", Some(Dict1("template", Texto(area))));
      var problema := IdentificarProblema(necesidad, template);

      traza.AgregarPaso(GenerandoSolucion, "Generando solución técnica", Some(Empty()));
      var solucion := GenerarSolucion(necesidad, template, componentes);

      traza.AgregarPaso(DisenandoArquitectura, "Diseñando arquitectura de alto nivel", Some(Empty()));
      var arquitectura := DisenarArquitectura(necesidad, template);

      traza.AgregarPaso(AnalizandoRiesgos, "Analizando principales riesgos", Some(Empty()));
      var riesgos := AnalizarRiesgos(necesidad, template, riesgosPersonalizados);

      traza.AgregarPaso(GenerandoOutput, "Generando propuesta final", Some(Empty()));
      propuesta := FormatearPropuesta(problema, solucion, arquitectura, riesgos, template);
      salidas := Salidas(problema, solucion, arquitectura, riesgos, template.tecnologias);
      var ps := PasosComposicion(area);
      AnexarCinco(previos, ps[0], ps[1], ps[2], ps[3], ps[4]);
    }

    /** The stages after a valid need: detection, composition, closing step and result. */
    method Completar(necesidad: string, areaEspecifica: Option<string>, incluirTrazabilidad: bool, reloj: Reloj,
                     traza: Trazabilidad) returns (res: ResultadoPropuesta)
      requires Valid()
      requires traza.pasos == [PasoInicio(necesidad)] && traza.errores == [] && traza.inicio == Some(reloj.inicio)
      modifies traza
      ensures res.exitoso && res.error.None? && res.propuesta != []
      ensures AreaForzada(areaEspecifica, areas) ==> res.areaDetectada == areaEspecifica.value
      ensures !AreaForzada(areaEspecifica, areas) ==> IsBestArea(templates, Lower(necesidad), res.areaDetectada)
      ensures res.outputs == SalidasDe(necesidad, ObtenerTemplate(templates, res.areaDetectada), componentes, riesgosPersonalizados)
      ensures res.propuesta == PropuestaDe(necesidad, ObtenerTemplate(templates, res.areaDetectada), componentes, riesgosPersonalizados)
      ensures res.inputs == Entradas(necesidad, areaEspecifica)
      ensures res.trazabilidad.Some? <==> incluirTrazabilidad
      ensures res.trazabilidad.Some? ==> res.trazabilidad.value == traza
      ensures traza.pasos ==
        PasosExito(necesidad, res.areaDetectada, AreaForzada(areaEspecifica, areas), DuracionMs(reloj.inicio, reloj.fin))
      ensures traza.errores == [] && traza.inicio == Some(reloj.inicio) && traza.fin == Some(reloj.fin)
    {
      var area := Detectar(necesidad, areaEspecifica, traza);
      var template := ObtenerTemplate(templates, area);
      var salidas, propuesta := Componer(necesidad, area, template, traza);
      ghost var antes := traza.pasos;
      assert antes == [PasoInicio(necesidad)] + PasosDeteccion(necesidad, area, AreaForzada(areaEspecifica, areas)) + PasosComposicion(area);

      traza.Finalizar(reloj.fin);
      traza.AgregarPaso(Completado, "Propuesta generada exitosamente", Some(Dict1("duracion_ms", Entero(traza.duracionMs))));
      assert traza.pasos == antes + [PasoFinal(DuracionMs(reloj.inicio, reloj.fin))];

      res := ResultadoPropuesta(propuesta, area, Entradas(necesidad, areaEspecifica), salidas, true,
                                if incluirTrazabilidad then Some(traza) else None, None);
    }

    /**
     * `generar_propuesta`. A need whose stripped length is under 10 fails
     * with the length message and a trace holding one step and one error,
     * attached whether or not it was asked for. Otherwise the area is the
     * forced one when that is a registered identifier, and the detected one
     * otherwise; the document and the five outputs come from that area's
     * template, and the trace, attached only when asked for, holds the ten
     * steps of `PasosExito` and no error.
     */
    method GenerarPropuesta(necesidad: string, areaEspecifica: Option<string>, incluirTrazabilidad: bool, reloj: Reloj)
      returns (res: ResultadoPropuesta)
      requires Valid()
      ensures res.exitoso <==> |Strip(necesidad)| >= LONGITUD_MINIMA
      ensures res.exitoso <==> res.error.None?
      ensures !res.exitoso ==>
        && res.propuesta == [] && res.areaDetectada == [] && res.outputs == Empty()
        && res.error == Some(MENSAJE_LONGITUD)
        && res.inputs == Dict1("necesidad", Texto(necesidad))
        && res.trazabilidad.Some? && fresh(res.trazabilidad.value)
        && res.trazabilidad.value.pasos == [PasoInicio(necesidad)]
        && res.trazabilidad.value.errores == [RegistroError("ValueError", MENSAJE_LONGITUD, "Validación de entrada")]
        && res.trazabilidad.value.inicio == Some(reloj.inicio)
        && res.trazabilidad.value.fin == Some(reloj.fin)
        && res.trazabilidad.value.duracionMs == DuracionMs(reloj.inicio, reloj.fin)
      ensures res.exitoso && AreaForzada(areaEspecifica, areas) ==> res.areaDetectada == areaEspecifica.value
      ensures res.exitoso && !AreaForzada(areaEspecifica, areas) ==> IsBestArea(templates, Lower(necesidad), res.areaDetectada)
      ensures res.exitoso ==>
        && res.outputs == SalidasDe(necesidad, ObtenerTemplate(templates, res.areaDetectada), componentes, riesgosPersonalizados)
        && res.propuesta == PropuestaDe(necesidad, ObtenerTemplate(templates, res.areaDetectada), componentes, riesgosPersonalizados)
        && res.inputs == Entradas(necesidad, areaEspecifica)
        && (res.trazabilidad.Some? <==> incluirTrazabilidad)
      ensures res.exitoso && res.trazabilidad.Some? ==>
        && fresh(res.trazabilidad.value)
        && res.trazabilidad.value.pasos ==
           PasosExito(necesidad, res.areaDetectada, AreaForzada(areaEspecifica, areas), DuracionMs(reloj.inicio, reloj.fin))
        && res.trazabilidad.value.errores == []
        && res.trazabilidad.value.inicio == Some(reloj.inicio)
        && res.trazabilidad.value.fin == Some(reloj.fin)
    {
      var traza := new Trazabilidad();
      traza.Iniciar(reloj.inicio);
      traza.AgregarPaso(Iniciado, "Inicialización del agente generador", Some(Dict1("necesidad_length", Entero(|necesidad|))));

      if necesidad == [] || |Strip(necesidad)| < LONGITUD_MINIMA {
        traza.Finalizar(reloj.fin);
        traza.AgregarError("ValueError", MENSAJE_LONGITUD, "Validación de entrada");
        return ResultadoPropuesta("", "", Dict1("necesidad", Texto(necesidad)), Empty(), false, Some(traza), Some(MENSAJE_LONGITUD));
      }

      res := Completar(necesidad, areaEspecifica, incluirTrazabilidad, reloj, traza);
    }
  }
}
