/** `ComprehensiveReportGeneratorV3`: compiles the final Markdown report of a
    session from the module files. The compiler's `modules_order` and
    `module_titles` list the same sixteen modules, with the same titles, as the
    generator's `modules_config`, so they are given here as a `seq<ModuleSpec>`
    (`ModuleConfig.Modules` in the running system). The file system is given as
    values: the modules directory as a map from module name to file content, the
    screenshots directory as the list of `*.png` names in glob order. */
module ReportCompiler {
  import opened Wrappers
  import opened Text
  import opened ModuleConfig

  // ---------------------------------------------------------------------------
  // Loading the modules and the screenshots

  /** A module file that the compiler accepts: it exists and its stripped
      content is longer than 100 characters. */
  predicate Loadable(files: map<string, string>, name: string) {
    name in files && |Strip(files[name])| > 100
  }

  /** The modules `_load_available_modules` loads from a directory holding
      `files`, walking `order`. */
  function Loaded(order: seq<ModuleSpec>, files: map<string, string>): (r: map<string, string>)
    ensures |r| <= |order|
    ensures forall n :: n in r <==> n in NamesOf(order) && Loadable(files, n)
    ensures forall n :: n in r ==> n in files && r[n] == files[n]
    decreases |order|
  {
    if order == [] then map[]
    else
      var init := order[..|order| - 1];
      var n := order[|order| - 1].name;
      var prev := Loaded(init, files);
      assert NamesOf(order) == NamesOf(init) + [n];
      if Loadable(files, n) then prev[n := files[n]] else prev
  }

  /** `_load_available_modules(modules_dir)`; `dir` is `None` when the
      directory does not exist. It then creates the directory, empty, and
      loads nothing; the creation matters only to the emergency writes that
      follow, which `Session.emergencyWriteOk` describes. */
  method LoadAvailableModules(order: seq<ModuleSpec>, dir: Option<map<string, string>>)
    returns (available: map<string, string>)
    ensures available == if dir.None? then map[] else Loaded(order, dir.value)
  {
    available := map[];
    if dir.None? {
      return;
    }
    var files := dir.value;
    var i := 0;
    while i < |order|
      invariant 0 <= i <= |order|
      invariant available == Loaded(order[..i], files)
    {
      var name := order[i].name;
      LoadedExtend(order, files, i);
      if name in files {
        var content := files[name];
        if |Strip(content)| > 0 && |Strip(content)| > 100 {
          available := available[name := content];
        }
      }
      i := i + 1;
    }
    assert order[..i] == order;
  }

  lemma LoadedExtend(order: seq<ModuleSpec>, files: map<string, string>, i: nat)
    requires i < |order|
    ensures Loaded(order[..i + 1], files)
         == if Loadable(files, order[i].name) then Loaded(order[..i], files)[order[i].name := files[order[i].name]]
            else Loaded(order[..i], files)
  {
    assert order[..i + 1][..i] == order[..i];
  }

  /** The Markdown path of a screenshot, relative to `analyses_data/`. */
  function ScreenshotPath(dirName: string, file: string): string {
    "files/" + dirName + "/" + file
  }

  /** `_load_screenshot_paths(files_dir)`: `pngs` are the names of the `*.png`
      files in glob order, `None` when the directory does not exist. */
  method LoadScreenshotPaths(dirName: string, pngs: Option<seq<string>>) returns (paths: seq<string>)
    ensures paths == ScreenshotPaths(dirName, pngs)
  {
    paths := [];
    if pngs.None? {
      return;
    }
    var files := pngs.value;
    var i := 0;
    while i < |files|
      invariant 0 <= i <= |files|
      invariant |paths| == i
      invariant forall k :: 0 <= k < i ==> paths[k] == ScreenshotPath(dirName, files[k])
    {
      paths := paths + [ScreenshotPath(dirName, files[i])];
      i := i + 1;
    }
  }

  /** The compiler's statuses: all the modules are loaded exactly when each
      configured module is loadable (the names being distinct). */
  lemma {:induction false} LoadedAll(order: seq<ModuleSpec>, files: map<string, string>)
    requires Distinct(NamesOf(order))
    ensures |Loaded(order, files)| == |order| <==> forall i :: 0 <= i < |order| ==> Loadable(files, order[i].name)
    decreases |order|
  {
    if order != [] {
      var k := |order| - 1;
      var init := order[..k];
      NamesOfPrefix(order, k);
      LoadedAll(init, files);
      LoadedCount(order, files);
      AllSplit(order, files);
    }
  }

  lemma AllSplit(order: seq<ModuleSpec>, files: map<string, string>)
    requires order != []
    ensures var k := |order| - 1;
      (forall i :: 0 <= i < |order| ==> Loadable(files, order[i].name))
      <==> (forall i :: 0 <= i < k ==> Loadable(files, order[..k][i].name)) && Loadable(files, order[k].name)
  {
    var k := |order| - 1;
    assert forall i :: 0 <= i < k ==> order[..k][i] == order[i];
  }

  /** Each loadable module of a list without repetitions adds one entry. */
  lemma LoadedCount(order: seq<ModuleSpec>, files: map<string, string>)
    requires order != [] && Distinct(NamesOf(order))
    ensures var k := |order| - 1;
      |Loaded(order, files)| == |Loaded(order[..k], files)| + if Loadable(files, order[k].name) then 1 else 0
  {
    var k := |order| - 1;
    var init := order[..k];
    var n := order[k].name;
    NamesOfPrefix(order, k);
    LoadedExtend(order, files, k);
    assert order[..k + 1] == order;
    assert n !in NamesOf(init) by {
      forall i | 0 <= i < k ensures NamesOf(init)[i] != n {
        assert NamesOf(order)[i] != NamesOf(order)[k];
      }
    }
    assert n !in Loaded(init, files);
  }

  lemma NamesOfPrefix(ms: seq<ModuleSpec>, k: nat)
    requires k <= |ms|
    ensures Distinct(NamesOf(ms)) ==> Distinct(NamesOf(ms[..k]))
    ensures NamesOf(ms[..k]) == NamesOf(ms)[..k]
  {
  }

  // ---------------------------------------------------------------------------
  // The final report, piece by piece

  /** Where the session's data is kept. */
  function SessionPath(session: string): string {
    "analyses_data/" + session + "/"
  }

  /** The index line of a module: its number, ✅ or ❌, its title. */
  function IndexLine(i: nat, loaded: bool, title: string): string {
    NatToString(i) + ". " + [if loaded then '✅' else '❌'] + " " + title + "\n"
  }

  function IndexLines(order: seq<ModuleSpec>, modules: map<string, string>): seq<string> {
    seq(|order|, i requires 0 <= i < |order| => IndexLine(i + 1, order[i].name in modules, order[i].title))
  }

  /** The index numbers `modules_order` from 1, one line per module, and marks
      exactly the loaded modules with ✅. */
  lemma IndexMarks(order: seq<ModuleSpec>, modules: map<string, string>, i: nat)
    requires i < |order|
    ensures |IndexLines(order, modules)| == |order|
    ensures var line, number := IndexLines(order, modules)[i], NatToString(i + 1);
      && StartsWith(line, number + ". ")
      && |number| + 2 < |line|
      && (line[|number| + 2] == '✅' <==> order[i].name in modules)
      && EndsWith(line, order[i].title + "\n")
  {
    IndexLineShape(i + 1, order[i].name in modules, order[i].title);
  }

  lemma IndexLineShape(i: nat, loaded: bool, title: string)
    ensures var line, number := IndexLine(i, loaded, title), NatToString(i);
      && StartsWith(line, number + ". ")
      && |number| + 2 < |line|
      && (line[|number| + 2] == '✅' <==> loaded)
      && EndsWith(line, title + "\n")
  {
    var number := NatToString(i);
    var mark := [if loaded then '✅' else '❌'];
    var tail := " " + title + "\n";
    var line := IndexLine(i, loaded, title);
    assert line == (number + ". ") + (mark + tail);
    assert line == (number + ". " + mark) + tail;
    assert line[|number| + 2] == mark[0];
  }

  const UnavailableHead := "⚠️ **Módulo não disponível** - Dados preservados para análise manual\n\nConsulte: `"
  const UnavailableTail := "` para dados completos\n\n"

  /** The placeholder of a module that is not available. */
  function Unavailable(session: string): string {
    UnavailableHead + SessionPath(session) + UnavailableTail
  }

  function SectionBody(m: ModuleSpec, modules: map<string, string>, session: string): string {
    if m.name in modules then modules[m.name] + "\n\n" else Unavailable(session)
  }

  function SectionText(m: ModuleSpec, modules: map<string, string>, session: string): string {
    "## " + m.title + "\n\n" + SectionBody(m, modules, session) + "---\n\n"
  }

  function Sections(order: seq<ModuleSpec>, modules: map<string, string>, session: string): seq<string> {
    seq(|order|, i requires 0 <= i < |order| => SectionText(order[i], modules, session))
  }

  /** One `## title` section per entry of `modules_order`, in that order, holding
      the module's content or a placeholder pointing to the session's data. */
  lemma SectionContents(order: seq<ModuleSpec>, modules: map<string, string>, session: string, i: nat)
    requires i < |order|
    ensures |Sections(order, modules, session)| == |order|
    ensures StartsWith(Sections(order, modules, session)[i], "## " + order[i].title + "\n\n")
    ensures order[i].name in modules ==> Contains(Sections(order, modules, session)[i], modules[order[i].name])
    ensures order[i].name !in modules ==> Contains(Sections(order, modules, session)[i], SessionPath(session))
  {
    assert Sections(order, modules, session)[i] == SectionText(order[i], modules, session);
    SectionShows(order[i], modules, session);
  }

  lemma SectionShows(m: ModuleSpec, modules: map<string, string>, session: string)
    ensures StartsWith(SectionText(m, modules, session), "## " + m.title + "\n\n")
    ensures m.name in modules ==> Contains(SectionText(m, modules, session), modules[m.name])
    ensures m.name !in modules ==> Contains(SectionText(m, modules, session), SessionPath(session))
  {
    var head := "## " + m.title + "\n\n";
    var body := SectionBody(m, modules, session);
    if m.name in modules {
      ContainsPrefix(modules[m.name], "\n\n");
      ContainsExtend(head, body, "---\n\n", modules[m.name]);
    } else {
      ContainsMiddle(UnavailableHead, SessionPath(session), UnavailableTail);
      ContainsExtend(head, body, "---\n\n", SessionPath(session));
    }
  }

  // ---------------------------------------------------------------------------
  // Collection summary

  /** A line of the collection report that names one of the statistics keywords. */
  predicate HasKeyword(line: string) {
    var l := Lower(line);
    Contains(l, "total") || Contains(l, "fontes") || Contains(l, "páginas") || Contains(l, "resultados")
  }

  /** `stats_lines`: the lines holding a keyword, in order. */
  function KeywordLines(lines: seq<string>): (r: seq<string>)
    ensures |r| <= |lines|
    ensures forall l :: l in r <==> l in lines && HasKeyword(l)
  {
    if lines == [] then []
    else (if HasKeyword(lines[0]) then [lines[0]] else []) + KeywordLines(lines[1..])
  }

  /** The filter works line by line: the keyword lines of two runs of lines are
      those of the first run followed by those of the second. With
      `KeywordLinesSingle` this keeps every keyword line, repeats included, in
      the order of the report. */
  lemma {:induction false} KeywordLinesConcat(a: seq<string>, b: seq<string>)
    ensures KeywordLines(a + b) == KeywordLines(a) + KeywordLines(b)
    decreases |a|
  {
    if a == [] {
      assert a + b == b;
    } else {
      assert (a + b)[1..] == a[1..] + b;
      KeywordLinesConcat(a[1..], b);
    }
  }

  /** One line is kept exactly when it names a keyword. */
  lemma KeywordLinesSingle(line: string)
    ensures KeywordLines([line]) == if HasKeyword(line) then [line] else []
  {
    assert [line][1..] == [];
  }

  /** One bullet per non-blank line. */
  function Bullets(lines: seq<string>): seq<string> {
    if lines == [] then []
    else (if Strip(lines[0]) != [] then ["- " + Strip(lines[0]) + "\n"] else []) + Bullets(lines[1..])
  }

  /** The bullets of the collection summary: the first ten keyword lines. */
  function StatBullets(coleta: string): seq<string> {
    Bullets(Take(KeywordLines(SplitOn(coleta, '\n')), 10))
  }

  /** A keyword line is never blank, so each of the first ten keyword lines
      becomes a bullet: the blank-line test in the loop never skips one. */
  lemma StatBulletsFirstTen(coleta: string)
    ensures var stats := KeywordLines(SplitOn(coleta, '\n'));
      && |StatBullets(coleta)| == (if |stats| < 10 then |stats| else 10)
      && forall i :: 0 <= i < |StatBullets(coleta)| ==> StatBullets(coleta)[i] == "- " + Strip(stats[i]) + "\n"
  {
    var stats := KeywordLines(SplitOn(coleta, '\n'));
    var first := Take(stats, 10);
    forall i | 0 <= i < |first| ensures Strip(first[i]) != [] {
      assert first[i] in stats;
      KeywordNotBlank(first[i]);
    }
    BulletsOfNonBlank(first);
  }

  lemma {:induction false} BulletsOfNonBlank(lines: seq<string>)
    requires forall i :: 0 <= i < |lines| ==> Strip(lines[i]) != []
    ensures |Bullets(lines)| == |lines|
    ensures forall i :: 0 <= i < |lines| ==> Bullets(lines)[i] == "- " + Strip(lines[i]) + "\n"
  {
    if lines != [] {
      var rest := lines[1..];
      assert forall i :: 0 <= i < |rest| ==> rest[i] == lines[i + 1];
      BulletsOfNonBlank(rest);
      assert Bullets(lines) == ["- " + Strip(lines[0]) + "\n"] + Bullets(rest);
    }
  }

  lemma KeywordNotBlank(line: string)
    requires HasKeyword(line)
    ensures Strip(line) != []
  {
    var l := Lower(line);
    if Contains(l, "total") {
      PieceNotBlank(line, "total");
    } else if Contains(l, "fontes") {
      PieceNotBlank(line, "fontes");
    } else if Contains(l, "páginas") {
      PieceNotBlank(line, "páginas");
    } else {
      PieceNotBlank(line, "resultados");
    }
  }

  /** A line whose lower-cased form holds a word starting with a letter is not blank. */
  lemma PieceNotBlank(line: string, w: string)
    requires Contains(Lower(line), w) && w != [] && 'a' <= w[0] <= 'z'
    ensures Strip(line) != []
  {
    var l := Lower(line);
    var k: nat :| k <= |l| && OccursAt(l, w, k);
    assert l[k..k + |w|] == w;
    assert l[k] == w[0];
    assert !IsSpace(line[k]);
    StripLengthBound(line, k, k);
  }

  const CollectionHead := "## RESUMO DA COLETA MASSIVA\n\n"
  const StatsHead := "### Estatísticas da Coleta:\n"

  /** The collection summary; `coleta` is `relatorio_coleta`, `None` when the
      file is absent. */
  function CollectionPart(coleta: Option<string>): string {
    if coleta.None? || coleta.value == [] then ""
    else
      CollectionHead
      + (if KeywordLines(SplitOn(coleta.value, '\n')) == [] then "" else StatsHead + Concat(StatBullets(coleta.value)))
      + "\n---\n\n"
  }

  // ---------------------------------------------------------------------------
  // Synthesis summary

  /** `resumo_sintese` when it is truthy: a dictionary (its two lists, empty
      when the key is absent) or any other JSON value. */
  datatype Synthesis = SummaryDict(insights: seq<string>, opportunities: seq<string>) | SummaryOther

  /** `items` numbered from 1, as `1. x` or, in bold, `**1.** x`. */
  function Numbered(items: seq<string>, bold: bool): seq<string> {
    seq(|items|, i requires 0 <= i < |items| => NumberLabel(i + 1, bold) + items[i] + "\n")
  }

  function NumberLabel(i: nat, bold: bool): string {
    if bold then "**" + NatToString(i) + ".** " else NatToString(i) + ". "
  }

  const SynthesisHead := "## INSIGHTS PRINCIPAIS DA SÍNTESE\n\n"
  const OpportunitiesHead := "\n### Oportunidades Identificadas:\n"

  function InsightLines(s: Synthesis): string {
    if s.SummaryOther? then "" else Concat(Numbered(Take(s.insights, 10), false))
  }

  function OpportunityLines(s: Synthesis): string {
    if s.SummaryOther? || s.opportunities == [] then "" else OpportunitiesHead + Concat(Numbered(Take(s.opportunities, 8), true))
  }

  /** The synthesis summary; `None` when `resumo_sintese` is absent or falsy. */
  function SynthesisPart(s: Option<Synthesis>): string {
    if s.None? then "" else SynthesisHead + InsightLines(s.value) + OpportunityLines(s.value) + "\n---\n\n"
  }

  /** The summary lists the first ten insights as `i. insight` and the first
      eight opportunities as `**i.** opportunity`, numbered from 1. */
  lemma SynthesisListsFirst(s: Synthesis, i: nat)
    requires s.SummaryDict?
    ensures i < |s.insights| && i < 10 ==> Contains(SynthesisPart(Some(s)), NumberLabel(i + 1, false) + s.insights[i] + "\n")
    ensures i < |s.opportunities| && i < 8 ==> Contains(SynthesisPart(Some(s)), NumberLabel(i + 1, true) + s.opportunities[i] + "\n")
  {
    var ins, ops := InsightLines(s), OpportunityLines(s);
    var tail := "\n---\n\n";
    assert SynthesisPart(Some(s)) == SynthesisHead + ins + (ops + tail);
    if i < |s.insights| && i < 10 {
      var lines := Numbered(Take(s.insights, 10), false);
      assert lines[i] == NumberLabel(i + 1, false) + s.insights[i] + "\n";
      ConcatContains(lines, i);
      ContainsExtend(SynthesisHead, ins, ops + tail, lines[i]);
    }
    if i < |s.opportunities| && i < 8 {
      var lines := Numbered(Take(s.opportunities, 8), true);
      assert lines[i] == NumberLabel(i + 1, true) + s.opportunities[i] + "\n";
      ConcatContains(lines, i);
      ContainsExtend(OpportunitiesHead, Concat(lines), "", lines[i]);
      assert ops == OpportunitiesHead + Concat(lines) + "";
      ContainsExtend(SynthesisHead + ins, ops, tail, lines[i]);
      assert SynthesisPart(Some(s)) == SynthesisHead + ins + ops + tail;
    }
  }

  // ---------------------------------------------------------------------------
  // Screenshots

  /** `path.split('/')[-1]`. */
  function FileName(path: string): (r: string)
    ensures '/' !in r
    ensures EndsWith(path, r)
  {
    path[RFindChar(path, '/') + 1..]
  }

  /** A screenshot whose file name mentions "viral" in any case. */
  predicate IsViral(path: string) {
    Contains(Lower(FileName(path)), "viral")
  }

  const ViralNote := "*Post viral capturado - Alto potencial de conversão*\n\n"

  function ShotHeading(i: nat): string {
    "### Evidência Visual " + NatToString(i) + "\n"
  }

  /** The heading and the embedded image of entry `i`. */
  function ShotLink(i: nat, path: string): string {
    ShotHeading(i) + ShotAnchor(i) + path
  }

  function ShotAnchor(i: nat): string {
    "![Screenshot " + NatToString(i) + "]("
  }

  function ShotNote(path: string): string {
    if IsViral(path) then ViralNote else ""
  }

  function ShotEntry(i: nat, path: string): string {
    ShotLink(i, path) + ")\n\n" + ShotNote(path)
  }

  function ShotEntries(shots: seq<string>): seq<string> {
    seq(|shots|, i requires 0 <= i < |shots| => ShotEntry(i + 1, shots[i]))
  }

  /** Entry `i` of the screenshots is headed `Evidência Visual i`, embeds the
      screenshot's path, and ends with the viral note exactly when the file
      name says "viral". */
  lemma ShotEntryFacts(i: nat, path: string)
    ensures StartsWith(ShotEntry(i, path), ShotHeading(i))
    ensures Contains(ShotEntry(i, path), path)
    ensures EndsWith(ShotEntry(i, path), ViralNote) <==> IsViral(path)
  {
    ShotEntryShape(ShotHeading(i), ShotAnchor(i), path, ShotNote(path));
    NoteAtEnd(ShotLink(i, path), ViralNote);
    if !IsViral(path) {
      assert ShotEntry(i, path) == ShotLink(i, path) + ")\n\n";
    }
  }

  lemma ShotEntryShape(h: string, a: string, path: string, note: string)
    ensures StartsWith(h + a + path + ")\n\n" + note, h)
    ensures Contains(h + a + path + ")\n\n" + note, path)
  {
    ContainsMiddle(h + a, path, ")\n\n" + note);
    Regroup(h + a, path, ")\n\n", note);
    assert (h + a + path + ")\n\n" + note)[..|h|] == h;
  }

  lemma Regroup(a: string, b: string, c: string, d: string)
    ensures a + b + c + d == a + b + (c + d)
    ensures a + b + c + d == a + (b + c + d)
  {
  }

  /** A note ending in `*` + two newlines is at the end of `x + note` and not
      at the end of a body that closes with `)` + two newlines. */
  lemma NoteAtEnd(x: string, note: string)
    requires |note| >= 3 && note[|note| - 3] == '*'
    ensures EndsWith(x + ")\n\n" + note, note)
    ensures !EndsWith(x + ")\n\n", note)
  {
    var b := x + ")\n\n";
    assert (b + note)[|b + note| - |note|..] == note;
  }

  function ScreenshotPart(shots: seq<string>): string {
    if shots == [] then ""
    else
      "## EVIDÊNCIAS VISUAIS DOS POSTS MAIS VIRAIS\n\nForam capturados **" + NatToString(|shots|) + " screenshots**.\n\n"
      + Concat(ShotEntries(shots)) + "---\n\n"
  }

  // ---------------------------------------------------------------------------
  // Header, footer and the whole final report

  function FinalHeader(session: string, loaded: nat, total: nat, shots: nat): string {
    "# RELATÓRIO FINAL ULTRA-ROBUSTO\n\n**Sessão:** " + session
    + "  \n**Módulos Compilados:** " + NatToString(loaded) + "/" + NatToString(total)
    + "  \n**Screenshots Incluídos:** " + NatToString(shots)
    + "\n\n---\n\n### Módulos Incluídos:\n"
  }

  function Status(loaded: nat, total: nat): string {
    if loaded == total then "Completo" else "Parcial - Dados Preservados"
  }

  function FinalFooter(session: string, loaded: nat, total: nat, shots: nat): string {
    "\n## INFORMAÇÕES TÉCNICAS\n\n**Sessão:** " + session
    + "  \n**Módulos Processados:** " + NatToString(loaded) + "/" + NatToString(total)
    + "  \n**Screenshots Virais:** " + NatToString(shots)
    + "  \n**Status:** " + Status(loaded, total)
    + "\n\n- ✅ Sucessos: " + NatToString(loaded)
    + "\n- ❌ Falhas: " + IntToString(total - loaded) + "\n"
  }

  /** The footer reads "Completo" exactly when every configured module was
      loadable from the modules directory. */
  lemma CompleteStatus(order: seq<ModuleSpec>, files: map<string, string>)
    requires Distinct(NamesOf(order))
    ensures Status(|Loaded(order, files)|, |order|) == "Completo"
        <==> forall i :: 0 <= i < |order| ==> Loadable(files, order[i].name)
  {
    LoadedAll(order, files);
  }

  function FinalParts(session: string, order: seq<ModuleSpec>, modules: map<string, string>, shots: seq<string>,
                      coleta: Option<string>, synthesis: Option<Synthesis>): seq<string>
  {
    [FinalHeader(session, |modules|, |order|, |shots|)] + IndexLines(order, modules)
    + ["\n---\n\n", CollectionPart(coleta), SynthesisPart(synthesis), ScreenshotPart(shots)]
    + Sections(order, modules, session)
    + [FinalFooter(session, |modules|, |order|, |shots|)]
  }

  /** `_compile_report_content`. */
  function FinalReport(session: string, order: seq<ModuleSpec>, modules: map<string, string>, shots: seq<string>,
                       coleta: Option<string>, synthesis: Option<Synthesis>): string
  {
    Concat(FinalParts(session, order, modules, shots, coleta, synthesis))
  }

  /** The final report has a section for every configured module, holding its
      content when it was loaded and pointing to the session's data otherwise. */
  lemma FinalReportShowsModules(session: string, order: seq<ModuleSpec>, modules: map<string, string>,
                                shots: seq<string>, coleta: Option<string>, synthesis: Option<Synthesis>, i: nat)
    requires i < |order|
    ensures Contains(FinalReport(session, order, modules, shots, coleta, synthesis), "## " + order[i].title + "\n\n")
    ensures order[i].name in modules
        ==> Contains(FinalReport(session, order, modules, shots, coleta, synthesis), modules[order[i].name])
    ensures order[i].name !in modules
        ==> Contains(FinalReport(session, order, modules, shots, coleta, synthesis), SessionPath(session))
  {
    var report := FinalReport(session, order, modules, shots, coleta, synthesis);
    var sec := Sections(order, modules, session)[i];
    FinalReportHasSection(session, order, modules, shots, coleta, synthesis, i);
    SectionContents(order, modules, session, i);
    var heading := "## " + order[i].title + "\n\n";
    StartsWithContains(sec, heading);
    ContainsTrans(report, sec, heading);
    if order[i].name in modules {
      ContainsTrans(report, sec, modules[order[i].name]);
    } else {
      ContainsTrans(report, sec, SessionPath(session));
    }
  }

  lemma FinalReportHasSection(session: string, order: seq<ModuleSpec>, modules: map<string, string>,
                              shots: seq<string>, coleta: Option<string>, synthesis: Option<Synthesis>, i: nat)
    requires i < |order|
    ensures |Sections(order, modules, session)| == |order|
    ensures Contains(FinalReport(session, order, modules, shots, coleta, synthesis), Sections(order, modules, session)[i])
  {
    PartAt(FinalHeader(session, |modules|, |order|, |shots|), IndexLines(order, modules),
      ["\n---\n\n", CollectionPart(coleta), SynthesisPart(synthesis), ScreenshotPart(shots)],
      Sections(order, modules, session), FinalFooter(session, |modules|, |order|, |shots|), i);
  }

  lemma PartAt(h: string, xs: seq<string>, mid: seq<string>, ys: seq<string>, f: string, i: nat)
    requires i < |ys|
    ensures Contains(Concat([h] + xs + mid + ys + [f]), ys[i])
  {
    var parts := [h] + xs + mid + ys + [f];
    assert parts[1 + |xs| + |mid| + i] == ys[i];
    ConcatContains(parts, 1 + |xs| + |mid| + i);
  }

  // ---------------------------------------------------------------------------
  // The complete report

  const NoCollection := "Dados de coleta não disponíveis"

  /** The raw collection report shown in the complete report: at most 5000
      characters of it, or the placeholder when the file is absent. */
  function RawCollection(coleta: Option<string>): (r: string)
    ensures |r| <= 5000
    ensures coleta.Some? ==> |r| == (if |coleta.value| < 5000 then |coleta.value| else 5000) && r == coleta.value[..|r|]
    ensures coleta.None? ==> r == NoCollection
  {
    Take(coleta.GetOr(NoCollection), 5000)
  }

  function CompleteFront(session: string, loaded: nat, total: nat, shots: nat): string {
    "# RELATÓRIO COMPLETO ULTRA-DETALHADO\n\n**Sessão:** " + session
    + "  \n**Módulos:** " + NatToString(loaded) + "/" + NatToString(total)
    + "  \n**Screenshots:** " + NatToString(shots)
    + "  \n\n---\n\n## DADOS BRUTOS DE COLETA\n\n"
  }

  const JsonOpen := "\n\n---\n\n## SÍNTESE ESTRUTURADA\n\n```json\n"
  const JsonClose := "\n```\n\n---\n\n## MÓDULOS DETALHADOS\n\n"

  function CompleteHeader(session: string, loaded: nat, total: nat, shots: nat, raw: string, json: string): string {
    CompleteFront(session, loaded, total, shots) + raw + JsonOpen + json + JsonClose
  }

  function CompleteBody(m: ModuleSpec, modules: map<string, string>): string {
    if m.name in modules then modules[m.name]
    else "Módulo " + m.name + " não disponível - dados preservados para análise manual\n"
  }

  function CompleteSection(m: ModuleSpec, modules: map<string, string>): string {
    "### " + m.title + "\n\n" + CompleteBody(m, modules) + "\n\n"
  }

  function CompleteSections(order: seq<ModuleSpec>, modules: map<string, string>): seq<string> {
    seq(|order|, i requires 0 <= i < |order| => CompleteSection(order[i], modules))
  }

  function EvidenceLine(i: nat, path: string): string {
    "![Evidência " + NatToString(i) + "](" + path + ")\n\n"
  }

  function CompleteShots(shots: seq<string>): string {
    if shots == [] then "" else
      "## EVIDÊNCIAS VISUAIS COMPLETAS\n\n"
      + Concat(seq(|shots|, i requires 0 <= i < |shots| => EvidenceLine(i + 1, shots[i])))
  }

  function CompleteFooter(session: string): string {
    "\n---\n\n## METADADOS COMPLETOS\n\n- **Localização**: " + SessionPath(session) + "\n"
  }

  /** The pieces of `_create_complete_report`; `json` is the serialised
      `resumo_sintese` (`{}` when absent). */
  function CompleteParts(session: string, order: seq<ModuleSpec>, modules: map<string, string>, shots: seq<string>,
                         coleta: Option<string>, json: string): seq<string>
  {
    [CompleteHeader(session, |modules|, |order|, |shots|, RawCollection(coleta), Take(json, 3000))]
    + CompleteSections(order, modules)
    + [CompleteShots(shots)]
    + [CompleteFooter(session)]
  }

  function CompleteReport(session: string, order: seq<ModuleSpec>, modules: map<string, string>, shots: seq<string>,
                          coleta: Option<string>, json: string): string
  {
    Concat(CompleteParts(session, order, modules, shots, coleta, json))
  }

  /** The complete report carries the first 5000 characters of the collection
      report (or the placeholder) and the first 3000 of the serialised synthesis. */
  lemma CompleteReportCarriesData(session: string, order: seq<ModuleSpec>, modules: map<string, string>,
                                  shots: seq<string>, coleta: Option<string>, json: string)
    ensures Contains(CompleteReport(session, order, modules, shots, coleta, json), RawCollection(coleta))
    ensures Contains(CompleteReport(session, order, modules, shots, coleta, json), Take(json, 3000))
  {
    var raw, js := RawCollection(coleta), Take(json, 3000);
    var header := CompleteHeader(session, |modules|, |order|, |shots|, raw, js);
    var report := CompleteReport(session, order, modules, shots, coleta, json);
    CompleteHeadPart(header, CompleteSections(order, modules), CompleteShots(shots), CompleteFooter(session));
    HeaderCarries(session, |modules|, |order|, |shots|, raw, js);
    ContainsTrans(report, header, raw);
    ContainsTrans(report, header, js);
  }

  lemma HeaderCarries(session: string, loaded: nat, total: nat, shots: nat, raw: string, json: string)
    ensures Contains(CompleteHeader(session, loaded, total, shots, raw, json), raw)
    ensures Contains(CompleteHeader(session, loaded, total, shots, raw, json), json)
  {
    Carries(CompleteFront(session, loaded, total, shots), raw, JsonOpen, json, JsonClose);
  }

  /** The complete report has a `### title` section for every configured module,
      holding the module's whole content when it was loaded. */
  lemma CompleteReportShowsModules(session: string, order: seq<ModuleSpec>, modules: map<string, string>,
                                   shots: seq<string>, coleta: Option<string>, json: string, i: nat)
    requires i < |order|
    ensures Contains(CompleteReport(session, order, modules, shots, coleta, json), "### " + order[i].title + "\n\n")
    ensures order[i].name in modules
        ==> Contains(CompleteReport(session, order, modules, shots, coleta, json), modules[order[i].name])
  {
    var report := CompleteReport(session, order, modules, shots, coleta, json);
    var sec := CompleteSection(order[i], modules);
    CompletePartAt(CompleteHeader(session, |modules|, |order|, |shots|, RawCollection(coleta), Take(json, 3000)),
      CompleteSections(order, modules), CompleteShots(shots), CompleteFooter(session), i);
    CompleteSectionShows(order[i], modules);
    ContainsTrans(report, sec, "### " + order[i].title + "\n\n");
    if order[i].name in modules {
      ContainsTrans(report, sec, modules[order[i].name]);
    }
  }

  lemma CompleteHeadPart(h: string, ys: seq<string>, a: string, f: string)
    ensures Contains(Concat([h] + ys + [a] + [f]), h)
  {
    var parts := [h] + ys + [a] + [f];
    assert parts[0] == h;
    ConcatContains(parts, 0);
  }

  lemma CompletePartAt(h: string, ys: seq<string>, a: string, f: string, i: nat)
    requires i < |ys|
    ensures Contains(Concat([h] + ys + [a] + [f]), ys[i])
  {
    var parts := [h] + ys + [a] + [f];
    assert parts[1 + i] == ys[i];
    ConcatContains(parts, 1 + i);
  }

  /** A section of the complete report opens with the title and holds the
      module's content when it was loaded. */
  lemma CompleteSectionShows(m: ModuleSpec, modules: map<string, string>)
    ensures Contains(CompleteSection(m, modules), "### " + m.title + "\n\n")
    ensures m.name in modules ==> Contains(CompleteSection(m, modules), modules[m.name])
  {
    var heading := "### " + m.title + "\n\n";
    ContainsPrefix(heading, CompleteBody(m, modules) + "\n\n");
    assert CompleteSection(m, modules) == heading + (CompleteBody(m, modules) + "\n\n");
    if m.name in modules {
      ContainsMiddle(heading, modules[m.name], "\n\n");
    }
  }

  // ---------------------------------------------------------------------------
  // Statistics and the compilation result

  /** `max(25, total_characters // 2000)`. */
  function EstimatedPages(totalCharacters: nat): (p: nat)
    ensures p >= 25
    ensures p == 25 <==> totalCharacters < 52000
    ensures p > 25 ==> p * 2000 <= totalCharacters < (p + 1) * 2000
  {
    if totalCharacters / 2000 > 25 then totalCharacters / 2000 else 25
  }

  /** The numeric part of `_generate_report_statistics` (the percentages are floats). */
  datatype Statistics = Statistics(
    totalModules: nat, modulesCompiled: nat, modulesMissing: int, screenshotsIncluded: nat,
    totalCharacters: nat, estimatedPages: nat, paginasEstimadas: nat, secoesGeradas: nat, evidenciasVisuais: nat)

  function ReportStatistics(order: seq<ModuleSpec>, modules: map<string, string>, shots: seq<string>,
                            final: string, complete: string): (r: Statistics)
    ensures r.modulesCompiled + r.modulesMissing == r.totalModules == |order|
    ensures r.totalCharacters == |final| + |complete|
    ensures r.estimatedPages == r.paginasEstimadas >= 25
    ensures r.secoesGeradas == r.modulesCompiled == |modules|
    ensures r.evidenciasVisuais == r.screenshotsIncluded == |shots|
  {
    var total := |final| + |complete|;
    Statistics(|order|, |modules|, |order| - |modules|, |shots|, total, EstimatedPages(total), EstimatedPages(total),
      |modules|, |shots|)
  }

  function FinalPath(session: string): string {
    SessionPath(session) + "relatorio_final.md"
  }

  function CompletePath(session: string): string {
    SessionPath(session) + "relatorio_final_completo.md"
  }

  datatype CompileResult =
    | Compiled(sessionId: string, reportPath: string, completeReportPath: string, modulesCompiled: nat,
               screenshotsIncluded: nat, statistics: Statistics)
    | CompileFailed(sessionId: string, error: string)

  /** What `compile_final_markdown_report` reads: the modules directory (`None`
      when absent), the `*.png` names of the screenshots directory, the
      collection report, the synthesis summary and its serialisation, the
      error each of the two report writes raises, if any, and whether writing
      the emergency module of a name succeeds. The directory is `None` when
      the session directory existed without `modules/`; loading the modules
      then creates it, so the emergency writes go into a directory that is
      there, and `emergencyWriteOk` alone says whether each one succeeds. */
  datatype Session = Session(
    modulesDir: Option<map<string, string>>, pngs: Option<seq<string>>, coleta: Option<string>,
    synthesis: Option<Synthesis>, json: string, finalError: Option<string>, completeError: Option<string>,
    emergencyWriteOk: string -> bool)

  /** The message of the `AttributeError` raised by `self.modules_config`. */
  const MissingConfigError := "'ComprehensiveReportGeneratorV3' object has no attribute 'modules_config'"

  function ScreenshotPaths(dirName: string, pngs: Option<seq<string>>): (r: seq<string>)
    ensures pngs.None? ==> r == []
    ensures pngs.Some? ==> |r| == |pngs.value| && forall i :: 0 <= i < |r| ==> r[i] == ScreenshotPath(dirName, pngs.value[i])
  {
    if pngs.None? then [] else seq(|pngs.value|, i requires 0 <= i < |pngs.value| => ScreenshotPath(dirName, pngs.value[i]))
  }

  function LoadedFrom(order: seq<ModuleSpec>, dir: Option<map<string, string>>): map<string, string> {
    if dir.None? then map[] else Loaded(order, dir.value)
  }

  /** Reports, saves and statistics once the modules are known. */
  function Finish(session: string, order: seq<ModuleSpec>, modules: map<string, string>, s: Session): CompileResult {
    var shots := ScreenshotPaths(session, s.pngs);
    if s.finalError.Some? then CompileFailed(session, s.finalError.value)
    else if s.completeError.Some? then CompileFailed(session, s.completeError.value)
    else
      var final := FinalReport(session, order, modules, shots, s.coleta, s.synthesis);
      var complete := CompleteReport(session, order, modules, shots, s.coleta, s.json);
      Compiled(session, FinalPath(session), CompletePath(session), |modules|, |shots|,
        ReportStatistics(order, modules, shots, final, complete))
  }

  /** `compile_final_markdown_report` as written: with no loadable module it
      reaches `self.modules_config`, which the compiler never defines. */
  function CompileAsWritten(session: string, order: seq<ModuleSpec>, s: Session): CompileResult {
    var modules := LoadedFrom(order, s.modulesDir);
    if |modules| == 0 then CompileFailed(session, MissingConfigError)
    else Finish(session, order, modules, s)
  }

  /** A session with no loadable module never compiles. */
  lemma NoModulesAborts(session: string, order: seq<ModuleSpec>, s: Session)
    requires s.modulesDir.Some? ==> forall i :: 0 <= i < |order| ==> !Loadable(s.modulesDir.value, order[i].name)
    ensures CompileAsWritten(session, order, s) == CompileFailed(session, MissingConfigError)
  {
  }

  /** The emergency module the compiler writes for a configured module. */
  function CompilerEmergencyText(m: ModuleSpec, session: string): string {
    "# " + m.title + "\n\n## ⚠️ MÓDULO DE EMERGÊNCIA\n\n- **Nome**: " + m.name
    + "\n- **Descrição**: " + m.description + "\n- **Sessão**: " + session + "\n"
  }

  /** The `open(..., 'w')` and `write` of an emergency module both succeed.
      A modules directory that was missing has been created by then. */
  predicate EmergencyWritten(s: Session, name: string) {
    s.emergencyWriteOk(name)
  }

  /** `_create_emergency_modules`, reading the configured modules from `order`:
      a module whose write raises is skipped. */
  function EmergencyModules(order: seq<ModuleSpec>, session: string, s: Session): (r: map<string, string>)
    ensures forall n :: n in r <==> n in NamesOf(order) && EmergencyWritten(s, n)
    ensures |r| <= |order|
    decreases |order|
  {
    if order == [] then map[]
    else
      var init := order[..|order| - 1];
      var m := order[|order| - 1];
      assert NamesOf(order) == NamesOf(init) + [m.name];
      var before := EmergencyModules(init, session, s);
      if EmergencyWritten(s, m.name) then before[m.name := CompilerEmergencyText(m, session)] else before
  }

  /** How many of the configured modules have their emergency write succeed. */
  function WrittenCount(order: seq<ModuleSpec>, s: Session): nat
    decreases |order|
  {
    if order == [] then 0
    else WrittenCount(order[..|order| - 1], s) + (if EmergencyWritten(s, order[|order| - 1].name) then 1 else 0)
  }

  /** One emergency module per configured module whose write succeeds: all of
      them when every write succeeds, and none exactly when every write
      raises. */
  lemma EmergencyModulesCount(order: seq<ModuleSpec>, session: string, s: Session)
    requires Distinct(NamesOf(order))
    ensures |EmergencyModules(order, session, s)| == WrittenCount(order, s)
    ensures (forall i :: 0 <= i < |order| ==> EmergencyWritten(s, order[i].name)) ==> WrittenCount(order, s) == |order|
    ensures WrittenCount(order, s) == 0 <==> forall i :: 0 <= i < |order| ==> !EmergencyWritten(s, order[i].name)
  {
    EmergencyModulesWritten(order, session, s);
    WrittenCountBounds(order, s);
  }

  lemma {:induction false} EmergencyModulesWritten(order: seq<ModuleSpec>, session: string, s: Session)
    requires Distinct(NamesOf(order))
    ensures |EmergencyModules(order, session, s)| == WrittenCount(order, s)
    decreases |order|
  {
    if order != [] {
      var k := |order| - 1;
      var init := order[..k];
      NamesOfPrefix(order, k);
      EmergencyModulesWritten(init, session, s);
      assert order[k].name !in NamesOf(init) by {
        forall i | 0 <= i < k ensures NamesOf(init)[i] != order[k].name {
          assert NamesOf(order)[i] != NamesOf(order)[k];
        }
      }
    }
  }

  lemma {:induction false} WrittenCountBounds(order: seq<ModuleSpec>, s: Session)
    ensures (forall i :: 0 <= i < |order| ==> EmergencyWritten(s, order[i].name)) ==> WrittenCount(order, s) == |order|
    ensures WrittenCount(order, s) == 0 <==> forall i :: 0 <= i < |order| ==> !EmergencyWritten(s, order[i].name)
    decreases |order|
  {
    if order != [] {
      var k := |order| - 1;
      var init := order[..k];
      WrittenCountBounds(init, s);
      assert forall i :: 0 <= i < k ==> init[i] == order[i];
    }
  }

  /** `compile_final_markdown_report` with the emergency modules read from the
      configured modules, as its guarantee intends. */
  function Compile(session: string, order: seq<ModuleSpec>, s: Session): CompileResult {
    var loaded := LoadedFrom(order, s.modulesDir);
    var modules := if |loaded| == 0 then EmergencyModules(order, session, s) else loaded;
    Finish(session, order, modules, s)
  }

  /** With the emergency modules in place, a session compiles whenever both
      reports can be saved. A session with no loadable module compiles one
      emergency module per successful emergency write: all of its modules when
      every write succeeds, also when its modules directory was missing. */
  lemma NoModulesCompilesEmergency(session: string, order: seq<ModuleSpec>, s: Session)
    requires Distinct(NamesOf(order))
    requires s.finalError.None? && s.completeError.None?
    ensures Compile(session, order, s).Compiled?
    ensures Compile(session, order, s).reportPath == FinalPath(session)
    ensures |LoadedFrom(order, s.modulesDir)| == 0 ==> Compile(session, order, s).modulesCompiled == WrittenCount(order, s)
    ensures |LoadedFrom(order, s.modulesDir)| == 0 && (forall i :: 0 <= i < |order| ==> EmergencyWritten(s, order[i].name))
        ==> Compile(session, order, s).modulesCompiled == |order|
    ensures s.modulesDir.None? && (forall i :: 0 <= i < |order| ==> EmergencyWritten(s, order[i].name))
        ==> Compile(session, order, s).modulesCompiled == |order|
    ensures |LoadedFrom(order, s.modulesDir)| > 0
        ==> Compile(session, order, s).modulesCompiled == |LoadedFrom(order, s.modulesDir)|
  {
    var loaded := LoadedFrom(order, s.modulesDir);
    var modules := if |loaded| == 0 then EmergencyModules(order, session, s) else loaded;
    FinishCompiles(session, order, modules, s);
    if |loaded| == 0 {
      EmergencyModulesCount(order, session, s);
    }
  }

  lemma FinishCompiles(session: string, order: seq<ModuleSpec>, modules: map<string, string>, s: Session)
    requires s.finalError.None? && s.completeError.None?
    ensures Finish(session, order, modules, s).Compiled?
    ensures Finish(session, order, modules, s).reportPath == FinalPath(session)
    ensures Finish(session, order, modules, s).modulesCompiled == |modules|
  {
  }

  /** A failing save reports its error, whatever was loaded. */
  lemma SaveErrorReported(session: string, order: seq<ModuleSpec>, s: Session)
    requires s.finalError.Some?
    ensures Compile(session, order, s) == CompileFailed(session, s.finalError.value)
  {
  }

  // ---------------------------------------------------------------------------
  // The compiler's methods

  /** Appends `lines` one by one. */
  method AppendLines(acc: string, lines: seq<string>) returns (r: string)
    ensures r == acc + Concat(lines)
  {
    r := acc;
    for i := 0 to |lines|
      invariant r == acc + Concat(lines[..i])
    {
      ConcatAppend(lines[..i], lines[i]);
      assert lines[..i + 1] == lines[..i] + [lines[i]];
      r := r + lines[i];
    }
    assert lines[..|lines|] == lines;
  }

  /** `_compile_report_content(session_id, modules, screenshots, ...)`. */
  method CompileReportContent(session: string, order: seq<ModuleSpec>, modules: map<string, string>,
                              shots: seq<string>, coleta: Option<string>, synthesis: Option<Synthesis>)
    returns (report: string)
    ensures report == FinalReport(session, order, modules, shots, coleta, synthesis)
  {
    var header := FinalHeader(session, |modules|, |order|, |shots|);
    var index := IndexLines(order, modules);
    var sep, collection, summary, evidence := "\n---\n\n", CollectionPart(coleta), SynthesisPart(synthesis), ScreenshotPart(shots);
    var sections := Sections(order, modules, session);
    var footer := FinalFooter(session, |modules|, |order|, |shots|);
    report := AppendLines(header, index);
    report := report + sep + collection + summary + evidence;
    report := AppendLines(report, sections);
    report := report + footer;
    FinalConcat(header, index, sep, collection, summary, evidence, sections, footer);
  }

  lemma FinalConcat(h: string, xs: seq<string>, a: string, b: string, c: string, d: string, ys: seq<string>, f: string)
    ensures Concat([h] + xs + [a, b, c, d] + ys + [f]) == h + Concat(xs) + a + b + c + d + Concat(ys) + f
  {
    var front, mid, back := [h] + xs, [a, b, c, d], ys + [f];
    assert [h] + xs + [a, b, c, d] + ys + [f] == (front + mid) + back;
    ConcatJoin(front + mid, back);
    ConcatJoin(front, mid);
    ConcatCons(h, xs);
    ConcatFour(a, b, c, d);
    ConcatAppend(ys, f);
  }

  lemma ConcatCons(h: string, xs: seq<string>)
    ensures Concat([h] + xs) == h + Concat(xs)
  {
    assert ([h] + xs)[1..] == xs;
  }

  lemma ConcatFour(a: string, b: string, c: string, d: string)
    ensures Concat([a, b, c, d]) == a + b + c + d
  {
    assert [d][1..] == [] && Concat([d]) == d;
    assert [c, d][1..] == [d] && Concat([c, d]) == c + d;
    assert [b, c, d][1..] == [c, d] && Concat([b, c, d]) == b + (c + d);
    assert [a, b, c, d][1..] == [b, c, d];
  }

  /** `_create_complete_report(session_id, modules, screenshots, ...)`. */
  method CreateCompleteReport(session: string, order: seq<ModuleSpec>, modules: map<string, string>,
                              shots: seq<string>, coleta: Option<string>, json: string)
    returns (report: string)
    ensures report == CompleteReport(session, order, modules, shots, coleta, json)
  {
    var header := CompleteHeader(session, |modules|, |order|, |shots|, RawCollection(coleta), Take(json, 3000));
    var sections := CompleteSections(order, modules);
    report := AppendLines(header, sections);
    report := report + CompleteShots(shots);
    report := report + CompleteFooter(session);
    CompleteConcat(header, sections, CompleteShots(shots), CompleteFooter(session));
  }

  lemma CompleteConcat(h: string, ys: seq<string>, a: string, f: string)
    ensures Concat([h] + ys + [a] + [f]) == h + Concat(ys) + a + f
  {
    ConcatAppend([h] + ys + [a], f);
    ConcatAppend([h] + ys, a);
    ConcatJoin([h], ys);
    assert Concat([h]) == h + Concat([]);
  }

  /** `_create_emergency_modules`: a module enters the map only once its
      file is written; a raising write is logged and skipped. */
  method CreateEmergencyModules(order: seq<ModuleSpec>, session: string, s: Session) returns (modules: map<string, string>)
    ensures modules == EmergencyModules(order, session, s)
  {
    modules := map[];
    for i := 0 to |order|
      invariant modules == EmergencyModules(order[..i], session, s)
    {
      assert order[..i + 1][..i] == order[..i];
      var content := CompilerEmergencyText(order[i], session);
      if EmergencyWritten(s, order[i].name) {
        modules := modules[order[i].name := content];
      }
    }
    assert order[..|order|] == order;
  }

  /** `compile_final_markdown_report(session_id)` with the emergency modules
      read from the configured modules. */
  method CompileFinalMarkdownReport(session: string, order: seq<ModuleSpec>, s: Session) returns (r: CompileResult)
    ensures r == Compile(session, order, s)
  {
    var available := LoadAvailableModules(order, s.modulesDir);
    if |available| == 0 {
      available := CreateEmergencyModules(order, session, s);
    }
    var shots := LoadScreenshotPaths(session, s.pngs);
    var final := CompileReportContent(session, order, available, shots, s.coleta, s.synthesis);
    if s.finalError.Some? {
      return CompileFailed(session, s.finalError.value);
    }
    var complete := CreateCompleteReport(session, order, available, shots, s.coleta, s.json);
    if s.completeError.Some? {
      return CompileFailed(session, s.completeError.value);
    }
    var statistics := ReportStatistics(order, available, shots, final, complete);
    r := Compiled(session, FinalPath(session), CompletePath(session), |available|, |shots|, statistics);
  }
}
