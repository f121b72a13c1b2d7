/** How the module generator and the report compiler meet: the generator
    writes each module's text to the module directory, and the compiler reads
    it back from there. */
module Pipeline {
  import opened Text
  import ModuleProcessor
  import ReportCompiler

  /** The two ends disagree on a text of exactly 100 stripped characters: the
      generator keeps such a third-attempt text (its replacement test is
      "fewer than 100"), but the compiler only loads a file of more than 100,
      so the module it was written for is reported as missing. */
  lemma HundredCharacterModuleShownMissing(outcome: nat -> ModuleProcessor.Attempt, fallback: string,
                                           files: map<string, string>, name: string)
    requires |Strip(fallback)| >= 100
    requires !ModuleProcessor.Accepted(outcome(0)) && !ModuleProcessor.Accepted(outcome(1))
    requires outcome(2).Returned? && |Strip(outcome(2).content)| == 100
    ensures ModuleProcessor.SelectContent(outcome, fallback) == outcome(2).content
    ensures !ReportCompiler.Loadable(files[name := ModuleProcessor.SelectContent(outcome, fallback)], name)
  {
  }
}
