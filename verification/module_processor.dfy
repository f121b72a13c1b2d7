/** The guaranteed generation of the sixteen analysis modules of a session
    (`EnhancedModuleProcessor.generate_all_modules` and its two reconciliation
    sweeps). The AI backend and the file system are collaborators outside the
    model: the backend is an oracle from (request, attempt number) to an attempt
    outcome, every file write is an oracle from (module name, write site) to a
    write outcome, and the `modules` directory of the session is a map from module
    name to file text held by a `ModuleStore` object. */
module ModuleProcessor {
  import opened Wrappers
  import opened Text
  import opened ModuleConfig

  // ---------------------------------------------------------------------------
  // Collaborators

  /** The two backend calls: `generate_text(prompt)` and
      `generate_with_active_search(prompt, context, session_id)`. */
  datatype GenerationRequest =
    | TextRequest(prompt: string)
    | ActiveSearchRequest(prompt: string, context: string, sessionId: string)
  {
    function Prompt(): string {
      match this
      case TextRequest(p) => p
      case ActiveSearchRequest(p, _, _) => p
    }
  }

  /** What one backend call did: returned a text (a `None` return is the empty
      text, which every test in the loop treats alike) or raised. */
  datatype Attempt = Returned(content: string) | Raised(error: string)

  /** The four places that write `<name>.md`. */
  datatype WriteStage = MainWrite | EmergencyWrite | EnsureWrite | ForceWrite

  /** What a write did: the text is on disk; the write returned but the file is
      not there afterwards (missing or empty); or it raised. A raise from `open`
      leaves the file as it was (`truncated` false); a raise from `write`, after
      `open(..., 'w')` has emptied the file, leaves it empty (`truncated` true). */
  datatype WriteOutcome = Persisted | NotPersisted | WriteRaised(error: string, truncated: bool)

  datatype Env = Env(
    generate: (GenerationRequest, nat) -> Attempt,
    write: (string, WriteStage) -> WriteOutcome,
    now: string)  // the formatted `datetime.now()` stamped into generated texts

  /** What `_load_base_data` hands to the generator. */
  datatype BaseData = BaseData(
    sessionId: string,
    synthesisCount: nat,      // len(synthesis_data)
    synthesisJson: string,    // json.dumps(synthesis_data, indent=2)
    coletaContent: string,    // relatorio_coleta.md
    screenshotCount: nat,     // len(screenshots_data)
    context: string)

  const MaxAttempts: nat := 3

  // ---------------------------------------------------------------------------
  // Text templates

  /** `module_name.replace('_', ' ')`. */
  function Spaced(name: string): (r: string)
    ensures |r| == |name| && '_' !in r
  {
    ReplaceChar(name, '_', ' ')
  }

  /** `_get_module_prompt`: the prompt sent for one module. Its fixed instructions
      are abbreviated to their headings. */
  function ModulePrompt(m: ModuleSpec, base: BaseData): string {
    Concat(PromptPieces(m, base))
  }

  // The fixed stretches of the prompt between its substituted fields.
  const PromptExpert: string := "\n\nVocê é um especialista em "
  const PromptData: string := ".\n\n## DADOS DISPONÍVEIS:\n"
  const PromptSynthesis: string := "\n\n## DADOS DE SÍNTESE ESTRUTURADA:\n"
  const PromptReport: string := "\n\n## RELATÓRIO DE COLETA:\n"
  const PromptScreenshots: string := "\n\n## SCREENSHOTS DISPONÍVEIS:\n"
  const PromptTask: string :=
    " imagens capturadas para evidência visual\n\n## TAREFA:\nCrie um módulo ULTRA-DETALHADO sobre "
  const PromptStructure: string :=
    " baseado EXCLUSIVAMENTE nos dados reais coletados acima.\n\n## ESTRUTURA OBRIGATÓRIA:\n"
    + "## REQUISITOS:\n## IMPORTANTE:\n"

  function PromptPieces(m: ModuleSpec, base: BaseData): seq<string> {
    [ "# ", m.title, PromptExpert, Lower(m.description), PromptData, base.context,
      PromptSynthesis, Take(base.synthesisJson, 2000), PromptReport, Take(base.coletaContent, 3000),
      PromptScreenshots, NatToString(base.screenshotCount), PromptTask, m.title, PromptStructure ]
  }

  /** The prompt shows the module's title, the session's context, the first 2000
      characters of the synthesis JSON and the first 3000 of the collection report. */
  lemma ModulePromptShowsData(m: ModuleSpec, base: BaseData)
    ensures var p := ModulePrompt(m, base);
      && Contains(p, m.title) && Contains(p, base.context)
      && Contains(p, Take(base.synthesisJson, 2000)) && Contains(p, Take(base.coletaContent, 3000))
  {
    var ps := PromptPieces(m, base);
    ConcatContains(ps, 1);
    ConcatContains(ps, 5);
    ConcatContains(ps, 7);
    ConcatContains(ps, 9);
  }

  /** Only those prefixes matter: two sessions whose synthesis JSON agrees on its
      first 2000 characters and whose report agrees on its first 3000 (and which
      agree on the context and the screenshot count) give the same prompt. */
  lemma ModulePromptIgnoresTail(m: ModuleSpec, b1: BaseData, b2: BaseData)
    requires b1.context == b2.context && b1.screenshotCount == b2.screenshotCount
    requires b1.synthesisJson[..if |b1.synthesisJson| < 2000 then |b1.synthesisJson| else 2000]
          == b2.synthesisJson[..if |b2.synthesisJson| < 2000 then |b2.synthesisJson| else 2000]
    requires b1.coletaContent[..if |b1.coletaContent| < 3000 then |b1.coletaContent| else 3000]
          == b2.coletaContent[..if |b2.coletaContent| < 3000 then |b2.coletaContent| else 3000]
    ensures ModulePrompt(m, b1) == ModulePrompt(m, b2)
  {
    assert Take(b1.synthesisJson, 2000) == Take(b2.synthesisJson, 2000);
    assert Take(b1.coletaContent, 3000) == Take(b2.coletaContent, 3000);
    assert PromptPieces(m, b1) == PromptPieces(m, b2);
  }

  /** The call made for a module: active search with the session's context for the
      modules configured with `use_active_search`, plain generation otherwise. */
  function Request(m: ModuleSpec, base: BaseData): GenerationRequest {
    if m.useActiveSearch then ActiveSearchRequest(ModulePrompt(m, base), base.context, base.sessionId)
    else TextRequest(ModulePrompt(m, base))
  }

  // The fixed stretches of the fallback text between its substituted fields,
  // abbreviated to their headings, except for the insight list, which is kept
  // whole: it starts and ends with a non-blank character and is over 100
  // characters long.
  const FallbackHead: string := "\n\n## Resumo Executivo\n\nEste módulo apresenta análise detalhada sobre "
  const FallbackContext: string :=
    ", baseado nos dados coletados e sintetizados para esta sessão específica.\n\n## Análise Detalhada\n\n"
    + "### Contexto dos Dados Coletados\n\nCom base na coleta massiva realizada, foram identificados "
    + "padrões específicos relacionados a "
  const FallbackSources: string := ":\n\n- **Fontes Analisadas**: "
  const FallbackCollected: string := " arquivos de síntese\n- **Conteúdo de Coleta**: "
  const FallbackPrimary: string :=
    " caracteres de dados reais\n\n### Insights Principais\n\n1. **Insight Primário**: Análise específica para "
  const FallbackInsights: string :=
    "baseada nos dados coletados\n" + "2. **Insight Secundário**: Padrões identificados na pesquisa massiva "
    + "realizada"
  const FallbackStrategies: string :=
    "\n\n### Estratégias Específicas\n\n### Implementação Prática\n\n"
    + "1. Implementar descobertas específicas do módulo "
  const FallbackKpis: string := "\n\n### Métricas e KPIs\n\n- Métrica específica 1 para "
  const FallbackSchedule: string := "\n\n### Cronograma de Execução\n\n---\n\n**Dados de Geração:**\n- Sessão: "
  const FallbackMethod: string := "\n- Método: Fallback estruturado com dados reais\n"

  function FallbackPieces(title: string, description: string, spaced: string, sources: string,
                          collected: string, name: string, session: string, now: string): seq<string>
  {
    [ "# ", title, FallbackHead, description, FallbackContext, spaced, FallbackSources, sources,
      FallbackCollected, collected, FallbackPrimary, name, " ", FallbackInsights, FallbackStrategies,
      name, FallbackKpis, name, FallbackSchedule, session, "\n- Timestamp: ", now, FallbackMethod ]
  }

  lemma FallbackPiecesMention(title: string, description: string, spaced: string, sources: string,
                              collected: string, name: string, session: string, now: string)
    ensures var r := Concat(FallbackPieces(title, description, spaced, sources, collected, name, session, now));
      Contains(r, title) && Contains(r, description) && Contains(r, name) && Contains(r, session)
  {
    var ps := FallbackPieces(title, description, spaced, sources, collected, name, session, now);
    ConcatContains(ps, 1);
    ConcatContains(ps, 3);
    ConcatContains(ps, 11);
    ConcatContains(ps, 19);
  }

  lemma FallbackPiecesLength(title: string, description: string, spaced: string, sources: string,
                             collected: string, name: string, session: string, now: string)
    ensures |Strip(Concat(FallbackPieces(title, description, spaced, sources, collected, name, session, now)))| >= 100
  {
    var ps := FallbackPieces(title, description, spaced, sources, collected, name, session, now);
    ConcatContains(ps, 13);
    var t := FallbackInsights;
    assert |t| == 106 && t[0] == 'b' && t[105] == 'a';
    StripKeepsPiece(Concat(ps), t);
  }

  /** `_generate_fallback_module_content`: a structured text naming the module,
      its title, its description and the session, long enough to pass the
      generator's own 100-character test. */
  function FallbackContent(m: ModuleSpec, base: BaseData, now: string): (r: string)
    ensures |Strip(r)| >= 100
  {
    var r := Concat(FallbackPieces(m.title, Lower(m.description), Spaced(m.name),
      NatToString(base.synthesisCount), NatToString(|base.coletaContent|), m.name, base.sessionId, now));
    FallbackPiecesLength(m.title, Lower(m.description), Spaced(m.name),
      NatToString(base.synthesisCount), NatToString(|base.coletaContent|), m.name, base.sessionId, now);
    r
  }

  /** The literal `{session_id}` the emergency text carries in its paths: the
      template escapes the braces, so the session is never substituted. */
  const SessionPlaceholder: string := "{session_id}"

  /** The title of a module: its configured title, or the name with `_` turned
      into blanks and title-cased. */
  function ModuleTitle(config: seq<ModuleSpec>, name: string): (r: string)
    ensures LookupIn(config, name).Some? ==> r == LookupIn(config, name).value.title
    ensures LookupIn(config, name).None? ==> r == TitleCase(Spaced(name))
  {
    match LookupIn(config, name)
    case Some(m) => m.title
    case None => TitleCase(Spaced(name))
  }

  // The fixed stretches of the emergency text, abbreviated to their headings.
  const EmergencyHead: string :=
    "\n\n## Status do Módulo\n\n**⚠️ MÓDULO GERADO EM MODO DE EMERGÊNCIA**\n\n"
    + "### Informações Técnicas\n\n- **Módulo**: "
  const EmergencyStatus: string := "\n- **Status**: Emergência - Dados preservados\n- **Erro Original**: "
  const EmergencyData: string := "\n\n### Dados Disponíveis\n\n1. **Relatório de Coleta**: `analyses_data/"
  const EmergencySynthesis: string := "/relatorio_coleta.md`\n2. **Síntese Estruturada**: `analyses_data/"
  const EmergencyScreens: string := "/resumo_sintese.json`\n3. **Screenshots Capturados**: `analyses_data/files/"
  const EmergencyTail: string := "/`\n\n### Recomendações\n\n### Próximos Passos\n\n---\n"

  function EmergencyPieces(title: string, name: string, error: string, now: string): seq<string> {
    [ "# ", title, EmergencyHead, name, "\n- **Título**: ", title, EmergencyStatus, error,
      "\n- **Gerado em**: ", now, EmergencyData, SessionPlaceholder, EmergencySynthesis,
      SessionPlaceholder, EmergencyScreens, SessionPlaceholder, EmergencyTail ]
  }

  /** `_generate_emergency_module_content`. */
  function EmergencyContent(config: seq<ModuleSpec>, name: string, error: string, now: string): (r: string)
    ensures r != ""
  {
    Concat(EmergencyPieces(ModuleTitle(config, name), name, error, now))
  }

  /** The error raised when the written file is missing or empty. */
  function NotCreatedMessage(name: string): string {
    "Arquivo " + name + ".md não foi criado corretamente"
  }

  const EnsureMessage: string := "Módulo criado por sistema de garantia"
  const ForceMessage: string := "Módulo criado por sistema de garantia final"

  /** The fallback text names the module and its title. */
  lemma FallbackNamesModule(m: ModuleSpec, base: BaseData, now: string)
    ensures Contains(FallbackContent(m, base, now), m.title)
    ensures Contains(FallbackContent(m, base, now), m.name)
  {
    FallbackPiecesMention(m.title, Lower(m.description), Spaced(m.name),
      NatToString(base.synthesisCount), NatToString(|base.coletaContent|), m.name, base.sessionId, now);
  }

  /** The fallback text carries the lower-cased description and the session id. */
  lemma FallbackNamesSession(m: ModuleSpec, base: BaseData, now: string)
    ensures Contains(FallbackContent(m, base, now), Lower(m.description))
    ensures Contains(FallbackContent(m, base, now), base.sessionId)
  {
    FallbackPiecesMention(m.title, Lower(m.description), Spaced(m.name),
      NatToString(base.synthesisCount), NatToString(|base.coletaContent|), m.name, base.sessionId, now);
  }

  lemma EmergencyPiecesMention(title: string, name: string, error: string, now: string)
    ensures Contains(Concat(EmergencyPieces(title, name, error, now)), name)
    ensures Contains(Concat(EmergencyPieces(title, name, error, now)), error)
    ensures Contains(Concat(EmergencyPieces(title, name, error, now)), title)
    ensures Contains(Concat(EmergencyPieces(title, name, error, now)), SessionPlaceholder)
  {
    var ps := EmergencyPieces(title, name, error, now);
    ConcatContains(ps, 3);
    ConcatContains(ps, 7);
    ConcatContains(ps, 1);
    ConcatContains(ps, 11);
  }

  /** The emergency text names the module and carries the error it was made for. */
  lemma EmergencyNamesError(config: seq<ModuleSpec>, name: string, error: string, now: string)
    ensures Contains(EmergencyContent(config, name, error, now), name)
    ensures Contains(EmergencyContent(config, name, error, now), error)
  {
    EmergencyPiecesMention(ModuleTitle(config, name), name, error, now);
  }

  /** The emergency text shows the module's title and the unsubstituted
      `{session_id}` placeholder. */
  lemma EmergencyKeepsPlaceholder(config: seq<ModuleSpec>, name: string, error: string, now: string)
    ensures Contains(EmergencyContent(config, name, error, now), ModuleTitle(config, name))
    ensures Contains(EmergencyContent(config, name, error, now), SessionPlaceholder)
  {
    EmergencyPiecesMention(ModuleTitle(config, name), name, error, now);
  }

  // ---------------------------------------------------------------------------
  // Choosing the content of one module

  /** The attempt loop from attempt number `attempt` on, `content` being what the
      loop variable holds and `outcome(k)` what the backend does on attempt `k`:
      stop at the first returned text whose stripped length exceeds 500; a short
      text is kept and the next attempt made; an exception keeps the previous
      content, except on the last attempt, where it installs `fallback`. */
  function AttemptLoop(outcome: nat -> Attempt, fallback: string, attempt: nat, content: Option<string>): Option<string>
    requires attempt <= MaxAttempts
    decreases MaxAttempts - attempt
  {
    if attempt == MaxAttempts then content
    else if Accepted(outcome(attempt)) then Some(outcome(attempt).content)
    else if outcome(attempt).Returned? then AttemptLoop(outcome, fallback, attempt + 1, Some(outcome(attempt).content))
    else if attempt < MaxAttempts - 1 then AttemptLoop(outcome, fallback, attempt + 1, content)
    else Some(fallback)
  }

  /** An attempt that is not accepted hands the loop on to the next attempt,
      with the content that attempt leaves behind. */
  lemma AttemptStep(outcome: nat -> Attempt, fallback: string, attempt: nat, content: Option<string>)
    requires attempt < MaxAttempts && !Accepted(outcome(attempt))
    ensures AttemptLoop(outcome, fallback, attempt, content)
         == AttemptLoop(outcome, fallback, attempt + 1,
                        if outcome(attempt).Returned? then Some(outcome(attempt).content)
                        else if attempt == MaxAttempts - 1 then Some(fallback)
                        else content)
  {
  }

  /** The loop always ends with a text: the first accepted one, or else the
      third attempt's text or the fallback; so the `not content` test after the
      loop never sees `None`. */
  lemma AttemptsYield(outcome: nat -> Attempt, fallback: string)
    ensures var c := AttemptLoop(outcome, fallback, 0, None);
      && c.Some?
      && (|| (Accepted(outcome(0)) && c.value == outcome(0).content)
          || (Accepted(outcome(1)) && c.value == outcome(1).content)
          || c.value == LastResult(outcome, fallback))
  {
    var c1 := if outcome(0).Returned? then Some(outcome(0).content) else None;
    if !Accepted(outcome(0)) {
      FirstAttemptRejected(outcome, fallback);
      LaterAttempts(outcome, fallback, c1);
    }
  }

  /** The loop's result, replaced by `fallback` when absent or shorter than 100
      stripped characters. */
  function SelectContent(outcome: nat -> Attempt, fallback: string): (r: string)
    ensures |Strip(r)| >= 100 || r == fallback
  {
    var c := AttemptLoop(outcome, fallback, 0, None);
    if c.None? || |Strip(c.value)| < 100 then fallback else c.value
  }

  /** An attempt whose text ends the loop. */
  predicate Accepted(a: Attempt) {
    a.Returned? && |Strip(a.content)| > 500
  }

  /** The content choice written out case by case: the first accepted attempt
      wins; failing that, the third attempt's text is kept when it has at least 100
      stripped characters (even though it was rejected as too short); everything
      else, including an exception on the third attempt, yields the fallback. The
      first two attempts matter only when accepted. */
  function ReferenceChoice(outcome: nat -> Attempt, fallback: string): string {
    if Accepted(outcome(0)) then outcome(0).content
    else if Accepted(outcome(1)) then outcome(1).content
    else if outcome(2).Returned? && |Strip(outcome(2).content)| >= 100 then outcome(2).content
    else fallback
  }

  /** What the third attempt makes of the loop: its text, or the fallback when it raises. */
  function LastResult(outcome: nat -> Attempt, fallback: string): string {
    match outcome(2)
    case Returned(c) => c
    case Raised(_) => fallback
  }

  /** From the second attempt on, what the loop held before no longer matters. */
  lemma LaterAttempts(outcome: nat -> Attempt, fallback: string, content: Option<string>)
    ensures AttemptLoop(outcome, fallback, 1, content)
         == Some(if Accepted(outcome(1)) then outcome(1).content else LastResult(outcome, fallback))
  {
    var c2 := if outcome(1).Returned? then Some(outcome(1).content) else content;
    if !Accepted(outcome(1)) {
      assert AttemptLoop(outcome, fallback, 1, content) == AttemptLoop(outcome, fallback, 2, c2);
    }
  }

  lemma SelectContentCases(outcome: nat -> Attempt, fallback: string)
    requires |Strip(fallback)| >= 100
    ensures SelectContent(outcome, fallback) == ReferenceChoice(outcome, fallback)
  {
    if !Accepted(outcome(0)) {
      SelectAfterFirst(outcome, fallback);
    }
  }

  lemma SelectAfterFirst(outcome: nat -> Attempt, fallback: string)
    requires |Strip(fallback)| >= 100 && !Accepted(outcome(0))
    ensures SelectContent(outcome, fallback) == ReferenceChoice(outcome, fallback)
  {
    var c1 := if outcome(0).Returned? then Some(outcome(0).content) else None;
    FirstAttemptRejected(outcome, fallback);
    LaterAttempts(outcome, fallback, c1);
    if !Accepted(outcome(1)) {
      LastResultKept(outcome, fallback);
    }
  }

  lemma FirstAttemptRejected(outcome: nat -> Attempt, fallback: string)
    requires !Accepted(outcome(0))
    ensures AttemptLoop(outcome, fallback, 0, None)
         == AttemptLoop(outcome, fallback, 1, if outcome(0).Returned? then Some(outcome(0).content) else None)
  {
  }

  lemma LastResultKept(outcome: nat -> Attempt, fallback: string)
    requires |Strip(fallback)| >= 100
    ensures var r := LastResult(outcome, fallback);
      (if |Strip(r)| < 100 then fallback else r)
      == (if outcome(2).Returned? && |Strip(outcome(2).content)| >= 100 then outcome(2).content else fallback)
  {
  }

  /** What the backend does on each attempt for module `m`. */
  function Outcomes(m: ModuleSpec, base: BaseData, env: Env): nat -> Attempt {
    (k: nat) => env.generate(Request(m, base), k)
  }

  /** What the module's file is written with. */
  function ChosenContent(m: ModuleSpec, base: BaseData, env: Env): (r: string)
    ensures |Strip(r)| >= 100
  {
    SelectContent(Outcomes(m, base, env), FallbackContent(m, base, env.now))
  }

  // ---------------------------------------------------------------------------
  // The results record and the module directory, as values

  datatype FailedModule = FailedModule(moduleName: string, error: string, emergencyError: string)

  /** The `results` dict (its counters and lists) together with the session's
      `modules` directory. */
  datatype Run = Run(files: map<string, string>, successful: int, failed: int,
                     generated: seq<string>, failedList: seq<FailedModule>)

  /** The directory after writing `content` to `<name>.md`: a write replaces the
      file, it never appends to it, and a write that raises inside `write`
      leaves the file emptied by `open`. */
  function Written(files: map<string, string>, name: string, content: string, outcome: WriteOutcome): map<string, string> {
    match outcome
    case Persisted => files[name := content]
    case NotPersisted => files - {name}
    case WriteRaised(_, truncated) => if truncated then files[name := ""] else files
  }

  /** `module_path.exists() and module_path.stat().st_size > 0`. */
  predicate Saved(files: map<string, string>, name: string) {
    name in files && files[name] != ""
  }

  function FailedNames(fs: seq<FailedModule>): (r: seq<string>)
    ensures |r| == |fs|
    ensures forall i :: 0 <= i < |fs| ==> r[i] == fs[i].moduleName
  {
    seq(|fs|, i requires 0 <= i < |fs| => fs[i].moduleName)
  }

  /** `[m for m in modules_failed if m.get("module") != name]`. */
  function WithoutModule(fs: seq<FailedModule>, name: string): (r: seq<FailedModule>)
    ensures forall f :: f in r <==> f in fs && f.moduleName != name
  {
    if fs == [] then []
    else (if fs[0].moduleName == name then [] else [fs[0]]) + WithoutModule(fs[1..], name)
  }

  /** How the texts are made: the content chosen for a module, and the emergency
      text for a module name and an error message. */
  type ModuleText = ModuleSpec -> string
  type EmergencyText = (string, string) -> string

  function ChosenTexts(base: BaseData, env: Env): ModuleText {
    (m: ModuleSpec) => ChosenContent(m, base, env)
  }

  function EmergencyTexts(config: seq<ModuleSpec>, now: string): EmergencyText {
    (name: string, error: string) => EmergencyContent(config, name, error, now)
  }

  /** One iteration of the main loop (the body of its `try`/`except`): write the
      chosen content; when the write raises or the file is then missing or
      empty, write the emergency text instead, and count the module as failed
      only when that second write raises too. */
  function MainStep(st: Run, m: ModuleSpec, chosen: ModuleText, emergency: EmergencyText, env: Env): Run {
    var outcome := env.write(m.name, MainWrite);
    var files := Written(st.files, m.name, chosen(m), outcome);
    if !outcome.WriteRaised? && Saved(files, m.name) then
      st.(files := files, successful := st.successful + 1, generated := st.generated + [m.name])
    else
      var error := if outcome.WriteRaised? then outcome.error else NotCreatedMessage(m.name);
      var second := env.write(m.name, EmergencyWrite);
      var files2 := Written(files, m.name, emergency(m.name, error), second);
      if second.WriteRaised? then
        st.(files := files2, failed := st.failed + 1,
            failedList := st.failedList + [FailedModule(m.name, error, second.error)])
      else
        st.(files := files2, successful := st.successful + 1, generated := st.generated + [m.name])
  }

  /** The main loop over the modules `ms`, in order. */
  function MainPass(st: Run, ms: seq<ModuleSpec>, chosen: ModuleText, emergency: EmergencyText, env: Env): Run
    decreases |ms|
  {
    if ms == [] then st
    else MainStep(MainPass(st, ms[..|ms| - 1], chosen, emergency, env), ms[|ms| - 1], chosen, emergency, env)
  }

  /** A state, and the error of the write that aborted the sweep, if one did. */
  datatype Swept = Swept(run: Run, raised: Option<string>)

  /** One iteration of `_ensure_all_modules_exist`: a missing or empty file gets
      the emergency text; a module it newly delivers is counted as generated and
      removed from the failures. Its write is not guarded: an exception aborts the
      whole generation. */
  function EnsureStep(st: Run, name: string, emergency: EmergencyText, env: Env): Swept {
    if Saved(st.files, name) then Swept(st, None)
    else
      var outcome := env.write(name, EnsureWrite);
      var files := Written(st.files, name, emergency(name, EnsureMessage), outcome);
      if outcome.WriteRaised? then Swept(st.(files := files), Some(outcome.error))
      else
        if name in st.generated then Swept(st.(files := files), None)
        else
          Swept(Run(files, st.successful + 1, if st.failed > 0 then st.failed - 1 else st.failed,
                    st.generated + [name], WithoutModule(st.failedList, name)), None)
  }

  function EnsurePass(st: Run, names: seq<string>, emergency: EmergencyText, env: Env): Swept
    decreases |names|
  {
    if names == [] then Swept(st, None)
    else
      var prev := EnsurePass(st, names[..|names| - 1], emergency, env);
      if prev.raised.Some? then prev else EnsureStep(prev.run, names[|names| - 1], emergency, env)
  }

  /** The configured names missing from `generated`, in configuration order. */
  function MissingNames(generated: seq<string>, names: seq<string>): (r: seq<string>)
    ensures forall n :: n in r <==> n in names && n !in generated
    decreases |names|
  {
    if names == [] then []
    else
      var last := names[|names| - 1];
      MissingNames(generated, names[..|names| - 1]) + (if last in generated then [] else [last])
  }

  /** One iteration of `_force_create_missing_modules`: a write that raises is
      logged and skipped. */
  function ForceStep(st: Run, name: string, emergency: EmergencyText, env: Env): Run {
    var outcome := env.write(name, ForceWrite);
    var files := Written(st.files, name, emergency(name, ForceMessage), outcome);
    if outcome.WriteRaised? then st.(files := files)
    else st.(files := files, successful := st.successful + 1, generated := st.generated + [name])
  }

  function ForcePass(st: Run, names: seq<string>, emergency: EmergencyText, env: Env): Run
    decreases |names|
  {
    if names == [] then st
    else ForceStep(ForcePass(st, names[..|names| - 1], emergency, env), names[|names| - 1], emergency, env)
  }

  /** `generate_all_modules` from a directory holding `files`: the main loop, the
      sweep that ensures every file exists and, when fewer modules than configured
      were counted, the forced creation of the missing ones. */
  function Generation(config: seq<ModuleSpec>, files: map<string, string>, chosen: ModuleText,
                      emergency: EmergencyText, env: Env): Swept
  {
    var main := MainPass(Run(files, 0, 0, [], []), config, chosen, emergency, env);
    var swept := EnsurePass(main, NamesOf(config), emergency, env);
    if swept.raised.Some? || swept.run.successful >= |config| then swept
    else Swept(ForcePass(swept.run, MissingNames(swept.run.generated, NamesOf(config)), emergency, env), None)
  }

  // ---------------------------------------------------------------------------
  // Bookkeeping invariants

  /** The results record accounts for the names `done` (those processed so far):
      the counters are the lengths of their lists, no name is listed twice, and
      each processed name is counted exactly once, as generated or as failed. */
  ghost predicate Books(st: Run, done: seq<string>) {
    && st.successful == |st.generated|
    && st.failed == |st.failedList|
    && Distinct(st.generated)
    && Distinct(FailedNames(st.failedList))
    && st.successful + st.failed == |done|
    && (forall n :: n in done <==> n in st.generated || n in FailedNames(st.failedList))
    && (forall n :: n in st.generated ==> n !in FailedNames(st.failedList))
  }

  lemma FailedNamesAppend(fs: seq<FailedModule>, f: FailedModule)
    ensures FailedNames(fs + [f]) == FailedNames(fs) + [f.moduleName]
  {
  }

  lemma MainStepBooks(st: Run, done: seq<string>, m: ModuleSpec, chosen: ModuleText,
                      emergency: EmergencyText, env: Env)
    requires Books(st, done) && m.name !in done
    ensures Books(MainStep(st, m, chosen, emergency, env), done + [m.name])
  {
    var r := MainStep(st, m, chosen, emergency, env);
    if r.failed != st.failed {
      FailedNamesAppend(st.failedList, r.failedList[|r.failedList| - 1]);
    }
  }

  lemma NamesOfPrefix(ms: seq<ModuleSpec>, k: nat)
    requires k <= |ms|
    ensures NamesOf(ms[..k]) == NamesOf(ms)[..k]
  {
  }

  /** After the main loop every configured module is counted exactly once, as
      generated or as failed: `successful_modules + failed_modules` is the number
      of modules and each counter is the length of its list. */
  lemma {:induction false} MainPassBooks(files: map<string, string>, ms: seq<ModuleSpec>, chosen: ModuleText,
                                         emergency: EmergencyText, env: Env)
    requires Distinct(NamesOf(ms))
    ensures Books(MainPass(Run(files, 0, 0, [], []), ms, chosen, emergency, env), NamesOf(ms))
  {
    if ms != [] {
      var k := |ms| - 1;
      NamesOfPrefix(ms, k);
      MainPassBooks(files, ms[..k], chosen, emergency, env);
      assert NamesOf(ms) == NamesOf(ms[..k]) + [ms[k].name];
      assert ms[k].name !in NamesOf(ms[..k]) by {
        forall i | 0 <= i < k ensures NamesOf(ms[..k])[i] != ms[k].name {
          assert NamesOf(ms)[i] != NamesOf(ms)[k];
        }
      }
      MainStepBooks(MainPass(Run(files, 0, 0, [], []), ms[..k], chosen, emergency, env),
                    NamesOf(ms[..k]), ms[k], chosen, emergency, env);
    }
  }

  lemma {:induction false} WithoutAbsent(fs: seq<FailedModule>, name: string)
    requires name !in FailedNames(fs)
    ensures WithoutModule(fs, name) == fs
  {
    if fs != [] {
      assert FailedNames(fs[1..]) == FailedNames(fs)[1..];
      WithoutAbsent(fs[1..], name);
    }
  }

  /** Filtering out a name listed once removes exactly that entry. */
  lemma {:induction false} WithoutModuleOnce(fs: seq<FailedModule>, name: string)
    requires Distinct(FailedNames(fs)) && name in FailedNames(fs)
    ensures |WithoutModule(fs, name)| == |fs| - 1
    ensures Distinct(FailedNames(WithoutModule(fs, name)))
    ensures forall n :: n in FailedNames(WithoutModule(fs, name)) <==> n in FailedNames(fs) && n != name
  {
    var tail := fs[1..];
    FailedNamesCons(fs[0], tail);
    assert [fs[0]] + tail == fs;
    if fs[0].moduleName == name {
      WithoutAbsent(tail, name);
      assert WithoutModule(fs, name) == tail;
    } else {
      WithoutModuleOnce(tail, name);
      KeepHead(fs[0], tail, name);
    }
  }

  lemma FailedNamesCons(f: FailedModule, fs: seq<FailedModule>)
    ensures FailedNames([f] + fs) == [f.moduleName] + FailedNames(fs)
  {
  }

  lemma KeepHead(f: FailedModule, tail: seq<FailedModule>, name: string)
    requires f.moduleName != name && f.moduleName !in FailedNames(tail)
    requires Distinct(FailedNames(WithoutModule(tail, name)))
    requires forall n :: n in FailedNames(WithoutModule(tail, name)) <==> n in FailedNames(tail) && n != name
    ensures WithoutModule([f] + tail, name) == [f] + WithoutModule(tail, name)
    ensures Distinct(FailedNames(WithoutModule([f] + tail, name)))
    ensures forall n :: n in FailedNames(WithoutModule([f] + tail, name)) <==> n in FailedNames([f] + tail) && n != name
  {
    assert ([f] + tail)[1..] == tail;
    FailedNamesCons(f, tail);
    FailedNamesCons(f, WithoutModule(tail, name));
  }

  lemma EnsureStepBooks(st: Run, done: seq<string>, name: string, emergency: EmergencyText, env: Env)
    requires Books(st, done) && name in done
    ensures Books(EnsureStep(st, name, emergency, env).run, done)
  {
    if !Saved(st.files, name) && !env.write(name, EnsureWrite).WriteRaised? && name !in st.generated {
      WithoutModuleOnce(st.failedList, name);
    }
  }

  /** `_ensure_all_modules_exist` keeps the accounts: a module it newly delivers
      moves from the failures to the generated list, and `failed_modules` is
      decremented with it, so it never goes below zero. This holds also when the
      sweep is aborted by a write that raises. */
  lemma {:induction false} EnsurePassBooks(st: Run, done: seq<string>, names: seq<string>,
                                           emergency: EmergencyText, env: Env)
    requires Books(st, done) && forall n :: n in names ==> n in done
    ensures Books(EnsurePass(st, names, emergency, env).run, done)
  {
    if names != [] {
      var k := |names| - 1;
      EnsurePassBooks(st, done, names[..k], emergency, env);
      var prev := EnsurePass(st, names[..k], emergency, env);
      if prev.raised.None? {
        EnsureStepBooks(prev.run, done, names[k], emergency, env);
      }
    }
  }

  // ---------------------------------------------------------------------------
  // Delivery: every configured module ends up with a non-empty file

  /** When every write of the sweep persists, the sweep is not aborted and each
      swept module has a non-empty file afterwards; saved files stay saved. */
  lemma {:induction false} EnsurePassSaves(st: Run, names: seq<string>, emergency: EmergencyText, env: Env)
    requires forall n, e :: emergency(n, e) != ""
    requires forall n :: n in names ==> env.write(n, EnsureWrite) == Persisted
    ensures EnsurePass(st, names, emergency, env).raised == None
    ensures forall n :: n in names || Saved(st.files, n) ==> Saved(EnsurePass(st, names, emergency, env).run.files, n)
  {
    if names != [] {
      var k := |names| - 1;
      EnsurePassSaves(st, names[..k], emergency, env);
      assert forall n :: n in names ==> n in names[..k] || n == names[k];
    }
  }

  /** When every forced write persists, each missing module is written and
      counted, in order. */
  lemma {:induction false} ForcePassFacts(st: Run, names: seq<string>, emergency: EmergencyText, env: Env)
    requires forall n, e :: emergency(n, e) != ""
    requires forall n :: n in names ==> env.write(n, ForceWrite) == Persisted
    ensures ForcePass(st, names, emergency, env).generated == st.generated + names
    ensures ForcePass(st, names, emergency, env).successful == st.successful + |names|
    ensures forall n :: n in names || Saved(st.files, n) ==> Saved(ForcePass(st, names, emergency, env).files, n)
  {
    if names != [] {
      var k := |names| - 1;
      ForcePassFacts(st, names[..k], emergency, env);
      assert names[..k] + [names[k]] == names;
      assert forall n :: n in names ==> n in names[..k] || n == names[k];
    }
  }

  lemma {:induction false} MissingDistinct(generated: seq<string>, names: seq<string>)
    requires Distinct(names)
    ensures Distinct(MissingNames(generated, names))
  {
    if names != [] {
      var k := |names| - 1;
      assert Distinct(names[..k]);
      MissingDistinct(generated, names[..k]);
      assert names[k] !in names[..k];
      DistinctAppend(MissingNames(generated, names[..k]), if names[k] in generated then [] else [names[k]]);
    }
  }

  /** The state after the sweep, when no module was left failed: all configured
      modules are generated. */
  lemma SweptComplete(st: Run, names: seq<string>)
    requires Books(st, names) && st.successful >= |names|
    ensures st.successful == |st.generated| == |names|
    ensures forall n :: n in st.generated <==> n in names
  {
    assert st.failedList == [];
  }

  /** The forced creation completes the generated list exactly with the
      modules that are missing from it. */
  lemma ForceCompletes(st: Run, names: seq<string>, emergency: EmergencyText, env: Env)
    requires Books(st, names) && Distinct(names)
    requires forall n, e :: emergency(n, e) != ""
    requires forall n :: n in names ==> env.write(n, ForceWrite) == Persisted
    ensures var r := ForcePass(st, MissingNames(st.generated, names), emergency, env);
      && r.successful == |r.generated| == |names|
      && Distinct(r.generated)
      && (forall n :: n in r.generated <==> n in names)
      && (forall n :: n in names && Saved(st.files, n) ==> Saved(r.files, n))
  {
    var missing := MissingNames(st.generated, names);
    ForcePassFacts(st, missing, emergency, env);
    MissingDistinct(st.generated, names);
    DistinctAppend(st.generated, missing);
    DistinctSameLength(st.generated + missing, names);
  }

  /** `generate_all_modules` delivers: when the sweep's and the forced writes
      persist, the generation is not aborted, every configured module has a
      non-empty file, and the results list each of them once as generated,
      with `successful_modules` equal to the number of modules. */
  lemma AllModulesDelivered(config: seq<ModuleSpec>, files: map<string, string>, chosen: ModuleText,
                            emergency: EmergencyText, env: Env)
    requires Distinct(NamesOf(config))
    requires forall n, e :: emergency(n, e) != ""
    requires forall n :: n in NamesOf(config) ==> env.write(n, EnsureWrite) == Persisted
    requires forall n :: n in NamesOf(config) ==> env.write(n, ForceWrite) == Persisted
    ensures var g := Generation(config, files, chosen, emergency, env);
      && g.raised == None
      && g.run.successful == |g.run.generated| == |config|
      && Distinct(g.run.generated)
      && (forall n :: n in g.run.generated <==> n in NamesOf(config))
      && (forall n :: n in NamesOf(config) ==> Saved(g.run.files, n))
  {
    var names := NamesOf(config);
    var main := MainPass(Run(files, 0, 0, [], []), config, chosen, emergency, env);
    MainPassBooks(files, config, chosen, emergency, env);
    EnsurePassBooks(main, names, names, emergency, env);
    EnsurePassSaves(main, names, emergency, env);
    var swept := EnsurePass(main, names, emergency, env);
    if swept.run.successful >= |config| {
      SweptComplete(swept.run, names);
    } else {
      ForceCompletes(swept.run, names, emergency, env);
    }
  }

  /** A module whose main write and emergency write both raise in `open` while a
      file left by an earlier run is still in place is counted twice: the sweep sees the
      stale file and leaves the failure standing, then the forced creation counts
      it as generated as well, so `successful_modules + failed_modules` exceeds
      the number of modules and the name is in both lists. */
  lemma StaleFileCountedTwice(m: ModuleSpec, stale: string, chosen: ModuleText,
                              emergency: EmergencyText, env: Env)
    requires stale != ""
    requires env.write(m.name, MainWrite).WriteRaised? && !env.write(m.name, MainWrite).truncated
    requires env.write(m.name, EmergencyWrite).WriteRaised? && !env.write(m.name, EmergencyWrite).truncated
    requires env.write(m.name, ForceWrite) == Persisted
    ensures var g := Generation([m], map[m.name := stale], chosen, emergency, env);
      && g.raised == None
      && g.run.successful == 1 && g.run.failed == 1
      && g.run.successful + g.run.failed > 1
      && m.name in g.run.generated && m.name in FailedNames(g.run.failedList)
  {
    var st0 := Run(map[m.name := stale], 0, 0, [], []);
    assert [m][..0] == [];
    assert MainPass(st0, [m][..0], chosen, emergency, env) == st0;
    var main := MainStep(st0, m, chosen, emergency, env);
    assert main.files == st0.files;
    var names := NamesOf([m]);
    assert names == [m.name];
    assert names[..0] == [];
    assert main.successful == 0 && main.failed == 1 && main.generated == [];
    assert FailedNames(main.failedList) == [m.name];
    assert EnsurePass(main, names, emergency, env) == Swept(main, None);
    assert MissingNames(main.generated, names) == [m.name];
    assert [m.name][..0] == [];
    assert ForcePass(main, [m.name], emergency, env) == ForceStep(main, m.name, emergency, env);
  }

  /** When the main write raises inside `write`, after `open` has emptied the
      old file, and the emergency write raises too, the sweep finds the empty
      file, writes the emergency text and moves the module from the failures
      to the generated list: it is counted once, and the forced creation does
      not run. */
  lemma TruncatedFileSwept(m: ModuleSpec, stale: string, chosen: ModuleText, emergency: EmergencyText, env: Env)
    requires env.write(m.name, MainWrite).WriteRaised? && env.write(m.name, MainWrite).truncated
    requires env.write(m.name, EmergencyWrite).WriteRaised?
    requires env.write(m.name, EnsureWrite) == Persisted && emergency(m.name, EnsureMessage) != ""
    ensures var g := Generation([m], map[m.name := stale], chosen, emergency, env);
      && g.raised == None
      && g.run.successful == 1 && g.run.failed == 0
      && g.run.generated == [m.name] && g.run.failedList == []
      && g.run.files == map[m.name := emergency(m.name, EnsureMessage)]
  {
    var st0 := Run(map[m.name := stale], 0, 0, [], []);
    assert [m][..0] == [];
    assert MainPass(st0, [m][..0], chosen, emergency, env) == st0;
    var main := MainStep(st0, m, chosen, emergency, env);
    assert main.files == map[m.name := ""];
    var names := NamesOf([m]);
    assert names == [m.name];
    assert names[..0] == [];
    assert main.successful == 0 && main.failed == 1 && main.generated == [];
    assert WithoutModule(main.failedList, m.name) == [];
    assert EnsurePass(main, names, emergency, env) == EnsureStep(main, m.name, emergency, env);
  }

  /** A main write that persists stores the chosen text under the module's name
      and counts the module as generated: writes replace the module's file. */
  lemma MainStepWrites(st: Run, m: ModuleSpec, chosen: ModuleText, emergency: EmergencyText, env: Env)
    requires env.write(m.name, MainWrite) == Persisted && chosen(m) != ""
    ensures var r := MainStep(st, m, chosen, emergency, env);
      && r.files == st.files[m.name := chosen(m)]
      && r.generated == st.generated + [m.name]
      && r.successful == st.successful + 1
      && r.failedList == st.failedList
  {
  }

  /** The generation of the sixteen configured modules with the texts the
      generator makes reports all sixteen as generated, even if the AI backend
      fails on every attempt, as long as the writes of the two sweeps persist
      (which modules and which files: `DeliveredWithTexts`). */
  lemma SixteenModulesDelivered(files: map<string, string>, base: BaseData, env: Env)
    requires forall n :: env.write(n, EnsureWrite) == Persisted && env.write(n, ForceWrite) == Persisted
    ensures var g := Generation(Modules, files, ChosenTexts(base, env), EmergencyTexts(Modules, env.now), env);
      && g.raised == None
      && g.run.successful == |g.run.generated| == TotalModules
  {
    ModulesWellFormed();
    DeliveredWithTexts(Modules, files, base, env);
  }

  /** With the texts the generator makes, every configured module is delivered
      (a non-empty file, listed once as generated) when the sweeps' writes persist. */
  lemma DeliveredWithTexts(config: seq<ModuleSpec>, files: map<string, string>, base: BaseData, env: Env)
    requires Distinct(NamesOf(config))
    requires forall n :: env.write(n, EnsureWrite) == Persisted && env.write(n, ForceWrite) == Persisted
    ensures var g := Generation(config, files, ChosenTexts(base, env), EmergencyTexts(config, env.now), env);
      && g.raised == None
      && g.run.successful == |g.run.generated| == |config|
      && (forall n :: n in g.run.generated <==> n in NamesOf(config))
      && (forall n :: n in NamesOf(config) ==> Saved(g.run.files, n))
  {
    EmergencyTextsNonEmpty(config, env.now);
    AllModulesDelivered(config, files, ChosenTexts(base, env), EmergencyTexts(config, env.now), env);
  }

  lemma EmergencyTextsNonEmpty(config: seq<ModuleSpec>, now: string)
    ensures forall n, e :: EmergencyTexts(config, now)(n, e) != ""
  {
    forall n, e ensures EmergencyTexts(config, now)(n, e) != "" {
      var r := EmergencyContent(config, n, e, now);
    }
  }

  // ---------------------------------------------------------------------------
  // The generator as it runs: the module directory and the `results` dict are
  // updated in place, and each step is proved to follow the functions above.

  /** The session's `modules` directory: module name to file content. */
  class ModuleStore {
    var files: map<string, string>

    constructor (files0: map<string, string>)
      ensures files == files0
    {
      files := files0;
    }

    /** `module_path.exists() and module_path.stat().st_size > 0`. */
    predicate HasFile(name: string)
      reads this
    {
      Saved(files, name)
    }

    /** `open(<name>.md, 'w').write(content)` at the given stage. */
    method Write(name: string, content: string, stage: WriteStage, env: Env) returns (outcome: WriteOutcome)
      modifies this
      ensures outcome == env.write(name, stage)
      ensures files == Written(old(files), name, content, outcome)
    {
      outcome := env.write(name, stage);
      match outcome {
        case Persisted => files := files[name := content];
        case NotPersisted => files := files - {name};
        case WriteRaised(_, truncated) =>
          if truncated {
            files := files[name := ""];
          }
      }
    }
  }

  /** The `results` dict of `generate_all_modules`. */
  class Results {
    const sessionId: string
    const totalModules: nat
    var successful: int
    var failed: int
    var generated: seq<string>
    var failedList: seq<FailedModule>

    constructor (sessionId: string, totalModules: nat)
      ensures this.sessionId == sessionId && this.totalModules == totalModules
      ensures successful == 0 && failed == 0 && generated == [] && failedList == []
    {
      this.sessionId := sessionId;
      this.totalModules := totalModules;
      successful := 0;
      failed := 0;
      generated := [];
      failedList := [];
    }
  }

  /** The results and the directory, as a value. */
  function RunOf(results: Results, store: ModuleStore): Run
    reads results, store
  {
    Run(store.files, results.successful, results.failed, results.generated, results.failedList)
  }

  /** The attempt loop of one module, with its `break` and its `continue`s;
      `outcome(k)` is what the backend call of attempt `k` does. */
  method RunAttempts(outcome: nat -> Attempt, fallback: string) returns (content: Option<string>)
    ensures content == AttemptLoop(outcome, fallback, 0, None)
  {
    ghost var chosen := AttemptLoop(outcome, fallback, 0, None);
    content := None;
    var attempt: nat := 0;
    while attempt < MaxAttempts
      invariant attempt <= MaxAttempts
      invariant AttemptLoop(outcome, fallback, attempt, content) == chosen
      decreases MaxAttempts - attempt
    {
      var a := outcome(attempt);
      if Accepted(a) {
        return Some(a.content);
      }
      AttemptStep(outcome, fallback, attempt, content);
      if a.Returned? {
        content := Some(a.content);
      } else if attempt == MaxAttempts - 1 {
        content := Some(fallback);
      }
      attempt := attempt + 1;
    }
  }

  /** The attempts followed by the forced fallback. */
  method ChooseContent(m: ModuleSpec, base: BaseData, env: Env) returns (content: string)
    ensures content == ChosenContent(m, base, env)
    ensures |Strip(content)| >= 100
  {
    var fallback := FallbackContent(m, base, env.now);
    var c := RunAttempts(Outcomes(m, base, env), fallback);
    if c.None? || |Strip(c.value)| < 100 {
      content := fallback;
    } else {
      content := c.value;
    }
  }

  /** One iteration of the main loop: the attempts choose the content, which
      is then stored. */
  method GenerateModule(m: ModuleSpec, base: BaseData, env: Env, ghost chosen: ModuleText, emergency: EmergencyText,
                        results: Results, store: ModuleStore)
    requires Chooses(chosen, base, env)
    modifies results, store
    ensures RunOf(results, store) == MainStep(old(RunOf(results, store)), m, chosen, emergency, env)
  {
    var content := ChooseContent(m, base, env);
    StoreModule(m, content, env, chosen, emergency, results, store);
  }

  /** `chosen` gives every module the content the attempts choose for it. */
  ghost predicate Chooses(chosen: ModuleText, base: BaseData, env: Env) {
    forall m {:trigger ChosenContent(m, base, env)} :: chosen(m) == ChosenContent(m, base, env)
  }

  /** The chosen `content` is written; if the write raises or leaves no file,
      the emergency text is written, and the module is recorded as failed only
      when that write raises as well. `emergency` is the processor's
      `_generate_emergency_module_content`. */
  method StoreModule(m: ModuleSpec, content: string, env: Env, ghost chosen: ModuleText, emergency: EmergencyText,
                     results: Results, store: ModuleStore)
    requires content == chosen(m)
    modifies results, store
    ensures RunOf(results, store) == MainStep(old(RunOf(results, store)), m, chosen, emergency, env)
  {
    var outcome := store.Write(m.name, content, MainWrite, env);
    if !outcome.WriteRaised? && store.HasFile(m.name) {
      results.successful := results.successful + 1;
      results.generated := results.generated + [m.name];
    } else {
      var error := if outcome.WriteRaised? then outcome.error else NotCreatedMessage(m.name);
      var second := store.Write(m.name, emergency(m.name, error), EmergencyWrite, env);
      if second.WriteRaised? {
        results.failed := results.failed + 1;
        results.failedList := results.failedList + [FailedModule(m.name, error, second.error)];
      } else {
        results.successful := results.successful + 1;
        results.generated := results.generated + [m.name];
      }
    }
  }

  /** Once the sweep is aborted, the remaining names are not visited. */
  lemma {:induction false} EnsureAbortSticks(st: Run, names: seq<string>, k: nat, emergency: EmergencyText, env: Env)
    requires k <= |names| && EnsurePass(st, names[..k], emergency, env).raised.Some?
    ensures EnsurePass(st, names, emergency, env) == EnsurePass(st, names[..k], emergency, env)
  {
    if k < |names| {
      var n := |names| - 1;
      assert names[..n][..k] == names[..k];
      EnsureAbortSticks(st, names[..n], k, emergency, env);
    } else {
      assert names[..k] == names;
    }
  }

  /** One iteration of `_ensure_all_modules_exist`. */
  method EnsureModule(name: string, env: Env, emergency: EmergencyText, results: Results, store: ModuleStore)
    returns (raised: Option<string>)
    modifies results, store
    ensures Swept(RunOf(results, store), raised) == EnsureStep(old(RunOf(results, store)), name, emergency, env)
  {
    raised := None;
    if !store.HasFile(name) {
      var outcome := store.Write(name, emergency(name, EnsureMessage), EnsureWrite, env);
      if outcome.WriteRaised? {
        raised := Some(outcome.error);
        return;
      }
      if name !in results.generated {
        results.generated := results.generated + [name];
        results.successful := results.successful + 1;
        results.failedList := WithoutModule(results.failedList, name);
        if results.failed > 0 {
          results.failed := results.failed - 1;
        }
      }
    }
  }

  lemma EnsurePassExtend(st: Run, names: seq<string>, i: nat, emergency: EmergencyText, env: Env)
    requires i < |names| && EnsurePass(st, names[..i], emergency, env).raised.None?
    ensures EnsurePass(st, names[..i + 1], emergency, env)
         == EnsureStep(EnsurePass(st, names[..i], emergency, env).run, names[i], emergency, env)
  {
    assert names[..i + 1][..i] == names[..i];
  }

  /** `_ensure_all_modules_exist`; `raised` is the error of a write that raised,
      which ends the sweep and propagates out of `generate_all_modules`. */
  method EnsureAllModulesExist(config: seq<ModuleSpec>, env: Env, emergency: EmergencyText,
                               results: Results, store: ModuleStore)
    returns (raised: Option<string>)
    modifies results, store
    ensures Swept(RunOf(results, store), raised)
         == EnsurePass(old(RunOf(results, store)), NamesOf(config), emergency, env)
  {
    var names := NamesOf(config);
    ghost var st0 := RunOf(results, store);
    raised := None;
    var i := 0;
    while i < |names|
      invariant 0 <= i <= |names|
      invariant raised == None
      invariant Swept(RunOf(results, store), None) == EnsurePass(st0, names[..i], emergency, env)
    {
      EnsurePassExtend(st0, names, i, emergency, env);
      raised := EnsureModule(names[i], env, emergency, results, store);
      assert Swept(RunOf(results, store), raised) == EnsurePass(st0, names[..i + 1], emergency, env);
      if raised.Some? {
        EnsureAbortSticks(st0, names, i + 1, emergency, env);
        return;
      }
      i := i + 1;
    }
    assert names[..i] == names;
  }

  /** The configured names missing from `modules_generated`, collected in a loop. */
  method CollectMissing(names: seq<string>, generated: seq<string>) returns (missing: seq<string>)
    ensures missing == MissingNames(generated, names)
  {
    missing := [];
    var i := 0;
    while i < |names|
      invariant 0 <= i <= |names|
      invariant missing == MissingNames(generated, names[..i])
    {
      assert names[..i + 1][..i] == names[..i];
      if names[i] !in generated {
        missing := missing + [names[i]];
      }
      i := i + 1;
    }
    assert names[..i] == names;
  }

  /** One iteration of `_force_create_missing_modules`. */
  method ForceModule(name: string, env: Env, emergency: EmergencyText, results: Results, store: ModuleStore)
    modifies results, store
    ensures RunOf(results, store) == ForceStep(old(RunOf(results, store)), name, emergency, env)
  {
    var outcome := store.Write(name, emergency(name, ForceMessage), ForceWrite, env);
    if !outcome.WriteRaised? {
      results.generated := results.generated + [name];
      results.successful := results.successful + 1;
    }
  }

  lemma ForcePassExtend(st: Run, names: seq<string>, i: nat, emergency: EmergencyText, env: Env)
    requires i < |names|
    ensures ForcePass(st, names[..i + 1], emergency, env)
         == ForceStep(ForcePass(st, names[..i], emergency, env), names[i], emergency, env)
  {
    assert names[..i + 1][..i] == names[..i];
  }

  /** `_force_create_missing_modules`: collects the configured names missing from
      `modules_generated`, then writes each of them; a write that raises is
      skipped. */
  method ForceCreateMissingModules(config: seq<ModuleSpec>, env: Env, emergency: EmergencyText,
                                   results: Results, store: ModuleStore)
    modifies results, store
    ensures RunOf(results, store)
         == ForcePass(old(RunOf(results, store)), MissingNames(old(results.generated), NamesOf(config)), emergency, env)
  {
    var missing := CollectMissing(NamesOf(config), results.generated);
    ghost var st0 := RunOf(results, store);
    var j := 0;
    while j < |missing|
      invariant 0 <= j <= |missing|
      invariant RunOf(results, store) == ForcePass(st0, missing[..j], emergency, env)
    {
      ForcePassExtend(st0, missing, j, emergency, env);
      ForceModule(missing[j], env, emergency, results, store);
      j := j + 1;
    }
    assert missing[..j] == missing;
  }

  /** `generate_all_modules(session_id)` over the configured modules `config`,
      with the session's base data and directory. */
  method GenerateAllModules(config: seq<ModuleSpec>, sessionId: string, base: BaseData, env: Env, store: ModuleStore)
    returns (results: Results, raised: Option<string>)
    modifies store
    ensures fresh(results)
    ensures results.sessionId == sessionId && results.totalModules == |config|
    ensures Swept(RunOf(results, store), raised)
         == Generation(config, old(store.files), ChosenTexts(base, env), EmergencyTexts(config, env.now), env)
  {
    results, raised := RunGeneration(config, sessionId, base, env, EmergencyTexts(config, env.now), store);
  }

  /** The body of `generate_all_modules`, with `emergency` the processor's
      emergency text maker: the main loop, the sweep, and the forced creation
      when fewer modules than configured were counted. */
  method RunGeneration(config: seq<ModuleSpec>, sessionId: string, base: BaseData, env: Env,
                       emergency: EmergencyText, store: ModuleStore)
    returns (results: Results, raised: Option<string>)
    modifies store
    ensures fresh(results)
    ensures results.sessionId == sessionId && results.totalModules == |config|
    ensures Swept(RunOf(results, store), raised)
         == Generation(config, old(store.files), ChosenTexts(base, env), emergency, env)
  {
    results := new Results(sessionId, |config|);
    GenerateEachModule(config, base, env, emergency, results, store);
    raised := EnsureAllModulesExist(config, env, emergency, results, store);
    if raised.None? && results.successful < results.totalModules {
      ForceCreateMissingModules(config, env, emergency, results, store);
    }
  }

  lemma MainPassExtend(st: Run, ms: seq<ModuleSpec>, i: nat, chosen: ModuleText, emergency: EmergencyText, env: Env)
    requires i < |ms|
    ensures MainPass(st, ms[..i + 1], chosen, emergency, env)
         == MainStep(MainPass(st, ms[..i], chosen, emergency, env), ms[i], chosen, emergency, env)
  {
    assert ms[..i + 1][..i] == ms[..i];
  }

  /** The main loop over the configured modules, in order. */
  method GenerateEachModule(config: seq<ModuleSpec>, base: BaseData, env: Env, emergency: EmergencyText,
                            results: Results, store: ModuleStore)
    modifies results, store
    ensures RunOf(results, store) == MainPass(old(RunOf(results, store)), config, ChosenTexts(base, env), emergency, env)
  {
    MainLoop(config, base, env, ChosenTexts(base, env), emergency, results, store);
  }

  method MainLoop(config: seq<ModuleSpec>, base: BaseData, env: Env, ghost chosen: ModuleText,
                  emergency: EmergencyText, results: Results, store: ModuleStore)
    requires Chooses(chosen, base, env)
    modifies results, store
    ensures RunOf(results, store) == MainPass(old(RunOf(results, store)), config, chosen, emergency, env)
  {
    ghost var st0 := RunOf(results, store);
    var i := 0;
    while i < |config|
      invariant 0 <= i <= |config|
      invariant RunOf(results, store) == MainPass(st0, config[..i], chosen, emergency, env)
    {
      GenerateModule(config[i], base, env, chosen, emergency, results, store);
      MainPassExtend(st0, config, i, chosen, emergency, env);
      i := i + 1;
    }
    assert config[..i] == config;
  }
}
