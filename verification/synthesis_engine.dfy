/** The AI synthesis step of a session (`AISynthesisEngine`): it loads the
    collection report, "studies" it in phases of at most a minute until the
    planned analysis time is used up, asks the AI backend for a JSON synthesis,
    cuts the JSON object out of the answer, and falls back to a synthesis built
    from the report when the backend raises.

    The backend, the JSON decoder and the file system are collaborators: the
    backend is a function from the prompt to its reply, `json.loads` a partial
    function from text to a synthesis, and the report file and the outcome of
    saving the JSON are inputs. */
module SynthesisEngine {
  import opened Wrappers
  import opened Text

  const BaseDir := "analyses_data"
  /** The longest planned phase, in seconds. */
  const PhaseLength := 60
  /** How much of the collection report the prompt embeds. */
  const PromptLimit := 50000

  // ---------------------------------------------------------------------------
  // the synthesis document

  datatype Resumo = Resumo(queryAnalisada: string, totalFontesAnalisadas: int,
                           principaisAchados: seq<string>, nivelConfiabilidade: string)
  datatype Mercado = Mercado(tamanhoMercado: string, tendenciasPrincipais: seq<string>,
                             oportunidades: seq<string>, ameacas: seq<string>)
  datatype Avatar = Avatar(perfilDemografico: string, comportamentoOnline: string,
                           doresPrincipais: seq<string>, desejosAspiracoes: seq<string>)
  datatype Insights = Insights(posicionamentoRecomendado: string, diferenciaisCompetitivos: seq<string>,
                               estrategiasEntrada: seq<string>)
  /** `metricas_relevantes`: empty, or the three figures of the fallback synthesis. */
  datatype Metricas = NoMetricas | ContentMetricas(contentLength: nat, wordCount: nat, sessionId: string)
  datatype Suporte = Suporte(fontesPrincipais: seq<string>, metricasRelevantes: Metricas,
                             evidenciasVisuais: seq<string>)

  /** The five sections of `resumo_sintese.json`. */
  datatype Synthesis = Synthesis(resumoExecutivo: Resumo, analiseMercado: Mercado,
                                 avatarDetalhado: Avatar, insightsEstrategicos: Insights,
                                 dadosSuporte: Suporte)

  /** What the backend call `generate_with_tools` did: answered, or raised. */
  datatype Reply = Answered(text: string) | Raised(error: string)

  // ---------------------------------------------------------------------------
  // study phases

  /** One entry of `study_phases` (the measured duration and the timestamp are
      clock readings and are not modelled). */
  datatype StudyPhase = StudyPhase(phase: nat, plannedDuration: int, focus: string)

  const FocusPrefix := "Análise de dados - Fase "

  function Focus(n: nat): string {
    FocusPrefix + NatToString(n)
  }

  /** How many phases the loop runs for an analysis time of `t` seconds: ceil(t / 60). */
  function PhaseCount(t: int): nat {
    if t <= 0 then 0 else (t + PhaseLength - 1) / PhaseLength
  }

  /** The phase with 0-based index `i`: the remaining time, capped at a minute. */
  function PhaseAt(t: int, i: nat): StudyPhase {
    var remaining := t - PhaseLength * i;
    StudyPhase(i + 1, if remaining < PhaseLength then remaining else PhaseLength, Focus(i + 1))
  }

  /** The phases planned for an analysis time of `t` seconds. */
  function Planned(t: int): seq<StudyPhase> {
    seq(PhaseCount(t), i requires 0 <= i < PhaseCount(t) => PhaseAt(t, i))
  }

  /** The sum of the planned durations of `ps`. */
  function PlannedTotal(ps: seq<StudyPhase>): int {
    if ps == [] then 0 else PlannedTotal(ps[..|ps| - 1]) + ps[|ps| - 1].plannedDuration
  }

  lemma PhaseCountBounds(t: int, k: nat)
    requires t > 0
    ensures k < PhaseCount(t) <==> PhaseLength * k < t
    ensures PhaseCount(t) == k <==> PhaseLength * (k - 1) < t <= PhaseLength * k
  {
  }

  /** The first `k` planned phases plan min(60 k, t) seconds (none when `k` is 0). */
  lemma {:induction false} PlannedPrefixTotal(t: int, k: nat)
    requires k <= PhaseCount(t)
    ensures PlannedTotal(Planned(t)[..k]) == if k == 0 || PhaseLength * k <= t then PhaseLength * k else t
  {
    if k > 0 {
      var p := Planned(t);
      assert p[..k][..k - 1] == p[..k - 1];
      assert p[..k][k - 1] == p[k - 1] == PhaseAt(t, k - 1);
      PlannedPrefixTotal(t, k - 1);
      PhaseCountBounds(t, k - 1);
      assert PhaseLength * (k - 1) < t;
      assert PlannedTotal(p[..k]) == PlannedTotal(p[..k - 1]) + p[k - 1].plannedDuration;
    } else {
      assert Planned(t)[..k] == [];
    }
  }

  /** The schedule of `_execute_active_ai_study`: phases numbered 1, 2, ...,
      each planning more than nothing and at most a minute, together planning
      exactly the analysis time; none when the analysis time is not positive. */
  lemma PlannedSchedule(t: int)
    ensures var p := Planned(t);
      && (forall i :: 0 <= i < |p| ==> p[i].phase == i + 1 && 0 < p[i].plannedDuration <= PhaseLength)
      && PlannedTotal(p) == (if t > 0 then t else 0)
      && (t <= 0 <==> p == [])
      && (t > 0 ==> PhaseLength * (|p| - 1) < t <= PhaseLength * |p|)
  {
    var p := Planned(t);
    forall i | 0 <= i < |p|
      ensures p[i].phase == i + 1 && 0 < p[i].plannedDuration <= PhaseLength
    {
      PhaseCountBounds(t, i);
    }
    PlannedPrefixTotal(t, |p|);
    assert p[..|p|] == p;
    if t > 0 {
      PhaseCountBounds(t, |p|);
    }
  }

  // ---------------------------------------------------------------------------
  // the prompt

  const PromptOpening := "\nMISSÃO: ESTUDO ATIVO E SÍNTESE APROFUNDADA\n\nRELATÓRIO DE COLETA MASSIVA:\n"
  const PromptTime := "  # Limita para não exceder tokens\n\nTEMPO DE ANÁLISE: "
  const PromptClosing := " minutos\n\nSua resposta deve ser um JSON estruturado.\n"

  /** The master prompt: the first 50000 characters of the report and the
      analysis time in whole minutes (Python's `//`, which floors, as Dafny's
      `/` does for a positive divisor). */
  function MasterPrompt(content: string, t: int): (r: string)
    ensures var n := |Take(content, PromptLimit)|;
      && n == (if |content| < PromptLimit then |content| else PromptLimit)
      && |PromptOpening| + n <= |r|
      && r[|PromptOpening|..|PromptOpening| + n] == content[..n]
  {
    var embedded := Take(content, PromptLimit);
    var r := PromptOpening + embedded + PromptTime + IntToString(t / 60) + PromptClosing;
    assert r[|PromptOpening|..|PromptOpening| + |embedded|] == embedded;
    r
  }

  /** Two reports that agree on their first 50000 characters give the same prompt. */
  lemma PromptIgnoresTail(c1: string, c2: string, t: int)
    requires c1[..if |c1| < PromptLimit then |c1| else PromptLimit]
          == c2[..if |c2| < PromptLimit then |c2| else PromptLimit]
    ensures MasterPrompt(c1, t) == MasterPrompt(c2, t)
  {
    assert Take(c1, PromptLimit) == Take(c2, PromptLimit);
  }

  // ---------------------------------------------------------------------------
  // JSON extraction

  /** The text handed to `json.loads`: from the first `{` to one past the last
      `}`; `None` when there is no `{`. `rfind` gives -1 for a missing `}`, so
      the end index is never -1 and only a missing `{` fails the guard. */
  function JsonCandidate(response: string): Option<string> {
    var start := FindChar(response, '{');
    var end := RFindChar(response, '}') + 1;
    if start != -1 && end != -1 then Some(PySlice(response, start, end)) else None
  }

  /** What the guard and the slice do. */
  lemma JsonCandidateShape(response: string)
    ensures JsonCandidate(response).None? <==> '{' !in response
    ensures match JsonCandidate(response)
      case None => true
      case Some(s) =>
        && (s == [] <==> forall k :: FindChar(response, '{') <= k < |response| ==> response[k] != '}')
        && (s != [] ==> s[0] == '{' && s[|s| - 1] == '}' && |s| <= |response|)
  {
    var start := FindChar(response, '{');
    if start != -1 {
      SliceShape(response, start, RFindChar(response, '}'));
    }
  }

  /** The slice from the `{` at `start` to just past the last `}`, `last`
      being where `rfind` finds it. */
  lemma SliceShape(response: string, start: nat, last: int)
    requires start < |response| && response[start] == '{'
    requires -1 <= last < |response| && (last == -1 <==> '}' !in response)
    requires last >= 0 ==> response[last] == '}' && '}' !in response[last + 1..]
    ensures var s := PySlice(response, start, last + 1);
      && (s == [] <==> forall k :: start <= k < |response| ==> response[k] != '}')
      && (s != [] ==> s[0] == '{' && s[|s| - 1] == '}' && |s| <= |response|)
  {
    if last < start {
      NoCloseFrom(response, start, last);
    } else {
      CloseFrom(response, start, last);
    }
  }

  /** No `}` at or after `start` when the last `}` comes before it. */
  lemma NoCloseFrom(response: string, start: nat, last: int)
    requires -1 <= last < start && last < |response| && (last == -1 <==> '}' !in response)
    requires last >= 0 ==> '}' !in response[last + 1..]
    ensures forall k :: start <= k < |response| ==> response[k] != '}'
  {
    forall k | start <= k < |response| ensures response[k] != '}' {
      if last == -1 {
        assert response[k] in response;
      } else {
        assert response[last + 1..][k - last - 1] == response[k];
      }
    }
  }

  /** The slice from a `{` to just past a later `}` starts and ends with them. */
  lemma CloseFrom(response: string, start: nat, last: nat)
    requires start <= last < |response| && response[start] == '{' && response[last] == '}'
    ensures var s := PySlice(response, start, last + 1);
      && s != [] && s[0] == '{' && s[|s| - 1] == '}' && |s| <= |response|
      && !(forall k :: start <= k < |response| ==> response[k] != '}')
  {
  }

  /** The fixed structure returned when the answer holds no decodable JSON. */
  function DefaultSynthesis(): Synthesis {
    Synthesis(
      Resumo("Análise de mercado", 0, ["Dados coletados com sucesso"], "Médio"),
      Mercado("Em análise", ["Crescimento digital"], ["Mercado em expansão"], ["Concorrência acirrada"]),
      Avatar("Público diversificado", "Ativo em redes sociais",
             ["Necessidade de soluções eficientes"], ["Melhoria de qualidade de vida"]),
      Insights("Diferenciação por qualidade", ["Inovação", "Atendimento"], ["Marketing digital", "Parcerias"]),
      Suporte(["Pesquisa web", "Redes sociais"], NoMetricas, []))
  }

  /** `_extract_json_from_response`: the decoded candidate, or the default
      structure when there is no candidate or it does not decode. */
  function ExtractJson(response: string, parse: string -> Option<Synthesis>): (r: Synthesis)
    ensures '{' !in response ==> r == DefaultSynthesis()
    ensures r != DefaultSynthesis() ==> exists s :: JsonCandidate(response) == Some(s) && parse(s) == Some(r)
    ensures JsonCandidate(response).Some? && parse(JsonCandidate(response).value).Some?
      ==> r == parse(JsonCandidate(response).value).value
    ensures JsonCandidate(response).None? || parse(JsonCandidate(response).value).None?
      ==> r == DefaultSynthesis()
  {
    match JsonCandidate(response)
    case None => DefaultSynthesis()
    case Some(s) => parse(s).GetOr(DefaultSynthesis())
  }

  /** An answer with a `{` but no `}` after it hands the decoder the empty text,
      which does not decode, so the default structure comes back. */
  lemma UnclosedGivesDefault(response: string, parse: string -> Option<Synthesis>)
    requires '{' in response && parse("") == None
    requires forall k :: FindChar(response, '{') <= k < |response| ==> response[k] != '}'
    ensures ExtractJson(response, parse) == DefaultSynthesis()
  {
    JsonCandidateShape(response);
  }

  // ---------------------------------------------------------------------------
  // fallback synthesis

  const FallbackQuery := "Análise de mercado baseada em coleta massiva"
  const FallbackFindings := ["Dados coletados de múltiplas fontes", "Análise de redes sociais realizada",
                             "Screenshots de posts virais capturados", "Tendências de mercado identificadas"]
  const FallbackReliability := "Alto - baseado em dados reais"
  const FallbackMercado := Mercado(
    "Mercado em crescimento com potencial significativo",
    ["Digitalização acelerada", "Mudança no comportamento do consumidor",
     "Crescimento do e-commerce", "Importância das redes sociais"],
    ["Mercado digital em expansão", "Novos canais de comunicação",
     "Segmentação mais precisa", "Automação de processos"],
    ["Concorrência acirrada", "Mudanças rápidas de tecnologia",
     "Saturação de alguns canais", "Necessidade de constante adaptação"])
  const FallbackAvatar := Avatar(
    "Público diversificado com forte presença digital",
    "Ativo em múltiplas plataformas sociais",
    ["Necessidade de soluções eficientes", "Busca por qualidade e confiabilidade",
     "Desejo de personalização", "Preocupação com custo-benefício"],
    ["Melhoria da qualidade de vida", "Economia de tempo",
     "Status e reconhecimento", "Segurança e tranquilidade"])
  const FallbackInsights := Insights(
    "Diferenciação através de qualidade e inovação",
    ["Atendimento personalizado", "Tecnologia avançada", "Preço competitivo", "Marca confiável"],
    ["Marketing digital focado", "Parcerias estratégicas",
     "Presença forte em redes sociais", "Conteúdo de valor"])
  const FallbackSources := ["Busca web intercalada", "Análise de redes sociais",
                            "TrendFinder", "Screenshots de posts virais"]
  const FallbackEvidence := ["Screenshots de posts com alto engajamento",
                             "Análise visual de tendências", "Dados de múltiplas plataformas"]

  /** `_create_fallback_synthesis`: fixed prose, one estimated source per
      hundred words of the report, and the report's measurements. */
  function FallbackSynthesis(content: string, sessionId: string): Synthesis {
    var wordCount := |Words(content)|;
    Synthesis(
      Resumo(FallbackQuery, wordCount / 100, FallbackFindings, FallbackReliability),
      FallbackMercado, FallbackAvatar, FallbackInsights,
      Suporte(FallbackSources, ContentMetricas(|content|, wordCount, sessionId), FallbackEvidence))
  }

  /** The fallback's figures: the source estimate is the number of whole
      hundreds of words, and the metrics record the report's length, its word
      count and the session. */
  lemma FallbackFigures(content: string, sessionId: string)
    ensures var f := FallbackSynthesis(content, sessionId);
      var n := f.resumoExecutivo.totalFontesAnalisadas;
      && f.dadosSuporte.metricasRelevantes == ContentMetricas(|content|, |Words(content)|, sessionId)
      && 0 <= n && 100 * n <= |Words(content)| < 100 * (n + 1)
      && f != DefaultSynthesis()
  {
  }

  // ---------------------------------------------------------------------------
  // the study and the whole step

  /** What `_execute_active_ai_study` returns: the extracted JSON of the
      backend's answer to the master prompt, or the fallback when it raised. */
  function StudyOutcome(content: string, sessionId: string, t: int,
                        generate: string -> Reply, parse: string -> Option<Synthesis>): Synthesis
  {
    match generate(MasterPrompt(content, t))
    case Answered(text) => ExtractJson(text, parse)
    case Raised(_) => FallbackSynthesis(content, sessionId)
  }

  /** When the backend answers, only the first 50000 characters of the report
      matter; when it raises, the fallback counts the whole report. */
  lemma StudyOutcomeDependsOn(c1: string, c2: string, sessionId: string, t: int,
                              generate: string -> Reply, parse: string -> Option<Synthesis>)
    requires c1[..if |c1| < PromptLimit then |c1| else PromptLimit]
          == c2[..if |c2| < PromptLimit then |c2| else PromptLimit]
    requires generate(MasterPrompt(c1, t)).Answered?
    ensures StudyOutcome(c1, sessionId, t, generate, parse) == StudyOutcome(c2, sessionId, t, generate, parse)
  {
    PromptIgnoresTail(c1, c2, t);
  }

  const ReportName := "relatorio_coleta.md"
  const SynthesisName := "resumo_sintese.json"
  const MissingReport := "Relatório de coleta não encontrado: "

  function ReportPath(sessionId: string): string {
    BaseDir + "/" + sessionId + "/" + ReportName
  }

  function SynthesisPath(sessionId: string): string {
    BaseDir + "/" + sessionId + "/" + SynthesisName
  }

  /** The `synthesis_results` dictionary, updated in place by the step. */
  class SynthesisResults {
    const sessionId: string
    const modelUsed: string
    const studyTimePlanned: int
    var studyPhases: seq<StudyPhase>
    var synthesisJson: Option<Synthesis>
    var synthesisJsonPath: Option<string>
    var success: bool
    var error: Option<string>

    constructor (sessionId: string, modelUsed: string, studyTimePlanned: int)
      ensures this.sessionId == sessionId && this.modelUsed == modelUsed
      ensures this.studyTimePlanned == studyTimePlanned
      ensures studyPhases == [] && synthesisJson == None && synthesisJsonPath == None
      ensures !success && error == None
    {
      this.sessionId := sessionId;
      this.modelUsed := modelUsed;
      this.studyTimePlanned := studyTimePlanned;
      studyPhases := [];
      synthesisJson := None;
      synthesisJsonPath := None;
      success := false;
      error := None;
    }
  }

  /** The phase loop: each pass plans min(60, time left), appends the phase and
      republishes the list in the results. */
  method StudyPhases(t: int, results: SynthesisResults) returns (phases: seq<StudyPhase>)
    modifies results
    ensures phases == Planned(t)
    ensures results.studyPhases == if phases == [] then old(results.studyPhases) else phases
    ensures results.synthesisJson == old(results.synthesisJson)
    ensures results.synthesisJsonPath == old(results.synthesisJsonPath)
    ensures results.success == old(results.success) && results.error == old(results.error)
  {
    phases := [];
    var total := 0;
    while total < t
      invariant |phases| <= PhaseCount(t)
      invariant total == if phases == [] || PhaseLength * |phases| <= t then PhaseLength * |phases| else t
      invariant phases != [] ==> PhaseLength * (|phases| - 1) < t
      invariant phases == Planned(t)[..|phases|]
      invariant results.studyPhases == if phases == [] then old(results.studyPhases) else phases
      invariant results.synthesisJson == old(results.synthesisJson)
      invariant results.synthesisJsonPath == old(results.synthesisJsonPath)
      invariant results.success == old(results.success) && results.error == old(results.error)
      decreases t - total
    {
      var duration := if PhaseLength < t - total then PhaseLength else t - total;
      var n := |phases| + 1;
      PhaseCountBounds(t, |phases|);
      assert Planned(t)[|phases|] == StudyPhase(n, duration, Focus(n));
      assert Planned(t)[..n] == Planned(t)[..|phases|] + [Planned(t)[|phases|]];
      phases := phases + [StudyPhase(n, duration, Focus(n))];
      results.studyPhases := phases;
      total := total + duration;
    }
    if t > 0 {
      PhaseCountBounds(t, |phases|);
    }
    assert Planned(t)[..|phases|] == Planned(t);
  }

  /** `_execute_active_ai_study`: the phases, then the backend call. */
  method ExecuteActiveAiStudy(content: string, sessionId: string, t: int, results: SynthesisResults,
                              generate: string -> Reply, parse: string -> Option<Synthesis>)
    returns (synthesis: Synthesis)
    modifies results
    ensures synthesis == StudyOutcome(content, sessionId, t, generate, parse)
    ensures results.studyPhases == if Planned(t) == [] then old(results.studyPhases) else Planned(t)
    ensures results.synthesisJson == old(results.synthesisJson)
    ensures results.synthesisJsonPath == old(results.synthesisJsonPath)
    ensures results.success == old(results.success) && results.error == old(results.error)
  {
    var phases := StudyPhases(t, results);
    var reply := generate(MasterPrompt(content, t));
    match reply
    case Answered(text) =>
      synthesis := ExtractJson(text, parse);
    case Raised(_) =>
      synthesis := FallbackSynthesis(content, sessionId);
  }

  /** `analyze_and_synthesize`. `report` is the content of the collection report
      (`None` when the file does not exist) and `saved` whether writing
      `resumo_sintese.json` succeeded (`_save_synthesis_json` returns `None`
      instead of raising). */
  method AnalyzeAndSynthesize(sessionId: string, model: string, t: int, report: Option<string>,
                              generate: string -> Reply, parse: string -> Option<Synthesis>, saved: bool)
    returns (results: SynthesisResults)
    ensures fresh(results)
    ensures results.sessionId == sessionId && results.modelUsed == model && results.studyTimePlanned == t
    ensures results.success <==> report.Some?
    ensures report.None? ==>
      && results.error == Some(MissingReport + ReportPath(sessionId))
      && results.studyPhases == [] && results.synthesisJson == None && results.synthesisJsonPath == None
    ensures report.Some? ==>
      && results.error == None
      && results.studyPhases == Planned(t)
      && results.synthesisJson == Some(StudyOutcome(report.value, sessionId, t, generate, parse))
      && results.synthesisJsonPath == (if saved then Some(SynthesisPath(sessionId)) else None)
  {
    results := new SynthesisResults(sessionId, model, t);
    if report.None? {
      results.error := Some(MissingReport + ReportPath(sessionId));
      results.success := false;
      return;
    }
    var synthesis := ExecuteActiveAiStudy(report.value, sessionId, t, results, generate, parse);
    Conclude(results, synthesis, if saved then Some(SynthesisPath(sessionId)) else None);
  }

  /** The final `synthesis_results.update(...)` of a successful step. */
  method Conclude(results: SynthesisResults, synthesis: Synthesis, path: Option<string>)
    modifies results
    ensures results.synthesisJson == Some(synthesis) && results.synthesisJsonPath == path
    ensures results.success && results.error == old(results.error)
    ensures results.studyPhases == old(results.studyPhases)
  {
    results.synthesisJson := Some(synthesis);
    results.synthesisJsonPath := path;
    results.success := true;
  }
}
