# ARQV30 analysis pipeline — a Dafny model of its core services

ARQV30 turns a market-research query into a Markdown dossier. Six services
make up its core, and each is one Dafny module here:

- `ModuleProcessor` (`enhanced_module_processor.py`) generates the sixteen
  analysis modules of a session. For each module it makes up to three AI
  attempts, forces a fallback text, falls back again to an emergency text when
  the write fails, and then runs two reconciliation sweeps. The model is a
  `Results` class (the counters and lists of the `results` dictionary) and a
  `ModuleStore` class (the module directory as a `map<string, string>`). Their
  loops are proved against the pure passes `MainPass`, `EnsurePass` and
  `ForcePass`. The headline theorem is `AllModulesDelivered`: when the sweep
  writes persist, every configured module has a non-empty file, is listed once,
  and `successful_modules` equals the number of modules, even when every AI
  call fails.
- `ReportCompiler` (`comprehensive_report_generator_v3.py`) loads the module
  files and the screenshots, builds the final and the complete report with
  `report +=` loops, and computes the statistics.
- `VisualCapture` (`visual_content_capture.py`) covers three things: the
  engagement scores, the viral-post ranking (the top three per platform, then
  a stable global sort and a cut to ten), and the bookkeeping of the screenshot
  loop.
- `DataCollector` (`massive_data_collector.py`) covers:
  - the four collection phases and their error markers;
  - the URL pool and the extraction cap and filter;
  - the additional queries;
  - the engagement and trending summaries;
  - the final statistics and the compact summary.
- `SynthesisEngine` (`ai_synthesis_engine.py`) covers:
  - the study-phase schedule;
  - the `{`…`}` slice of the AI answer;
  - the fallback synthesis;
  - the `synthesis_results` record, a class updated in place.
- `AlibabaSearch` (`alibaba_search.py`) builds the synthetic product list and
  its counts.

Supporting modules:

- `Wrappers` (`Option`);
- `Text`, which models Python's string built-ins: `strip`, `find`/`rfind`,
  slicing, `split`, `lower`, `replace`, `str(int)` and `{:03d}`;
- `StableSort`, Python's stable `sort(key=..., reverse=True)` as insertion
  into a descending list;
- `ModuleConfig`, the sixteen configured modules;
- `Pipeline`, which relates the generator to the compiler.

The AI backend, the search providers, the social platform client, the deep
navigator, the content extractor, the browser and the file system are
parameters. Each is a function from its request to its outcome (a value, or
the text of the exception it raised), or a value read from disk.

## Model

The specification functions that spell out a whole step or pass of the
generator (`MainStep`, `MainPass`, `EnsureStep`, `EnsurePass`, `ForceStep`,
`ForcePass`, `Generation`, `AttemptLoop`, `ReferenceChoice`, `Written`,
`Saved`) carry no contract of their own; the methods that implement those
steps are proved equal to them, and the lemmas named after them state what
they guarantee.

| member | source | states |
|---|---|---|
| ModuleProcessor.Spaced | src/services/enhanced_module_processor.py:366 | `name.replace('_', ' ')` keeps the length and leaves no underscore |
| ModuleProcessor.ModulePromptShowsData | src/services/enhanced_module_processor.py:502-547 | the module prompt shows the title, the context, the first 2000 characters of the synthesis JSON and the first 3000 of the collection report |
| ModuleProcessor.ModulePromptIgnoresTail | src/services/enhanced_module_processor.py:513-516 | the prompt depends on the synthesis JSON and the report only through those first 2000 and 3000 characters |
| ModuleProcessor.FallbackContent | src/services/enhanced_module_processor.py:268-361 | the fallback module text always has at least 100 non-blank characters, so the forced-fallback test at line 183 never rejects it |
| ModuleProcessor.FallbackPiecesMention | src/services/enhanced_module_processor.py:268-361 | the fallback template, whatever is substituted into it, shows the title, the description, the module name and the session id |
| ModuleProcessor.FallbackPiecesLength | src/services/enhanced_module_processor.py:268-361 | the fallback template's stripped length is at least 100 for any substituted values |
| ModuleProcessor.FallbackNamesModule | src/services/enhanced_module_processor.py:268-361 | the fallback text of a module contains its title and its name |
| ModuleProcessor.FallbackNamesSession | src/services/enhanced_module_processor.py:268-361 | the fallback text contains the lower-cased description and the session id |
| ModuleProcessor.ModuleTitle | src/services/enhanced_module_processor.py:366 | the configured title when the name is configured, the name with blanks for underscores and title-cased otherwise |
| ModuleProcessor.EmergencyContent | src/services/enhanced_module_processor.py:363-411 | the emergency text is never empty |
| ModuleProcessor.EmergencyPiecesMention | src/services/enhanced_module_processor.py:368-411 | the emergency template shows the module name, the error message, the title and the literal `{session_id}` placeholder |
| ModuleProcessor.EmergencyNamesError | src/services/enhanced_module_processor.py:363-411 | the emergency text names the module and carries the original error message |
| ModuleProcessor.EmergencyKeepsPlaceholder | src/services/enhanced_module_processor.py:366-393 | the emergency text shows the module's title and the unsubstituted `{session_id}` placeholder (the doubled braces of the f-string) |
| ModuleProcessor.SelectContent | src/services/enhanced_module_processor.py:142-185 | the content written for a module either has at least 100 stripped characters or is the fallback text |
| ModuleProcessor.AttemptsYield | src/services/enhanced_module_processor.py:142-180 | the attempt loop always ends holding a text: an accepted first or second answer, or else the third attempt's text or the fallback, so the `None` test after the loop never fires |
| ModuleProcessor.SelectContentCases | src/services/enhanced_module_processor.py:146-185 | the attempt loop agrees with a case-by-case reference: the first attempt returning more than 500 stripped characters wins; otherwise the third attempt's text if it has at least 100, else the fallback |
| ModuleProcessor.SelectAfterFirst | src/services/enhanced_module_processor.py:146-185 | the same agreement when the first attempt is not accepted |
| ModuleProcessor.FirstAttemptRejected | src/services/enhanced_module_processor.py:146-180 | a rejected first attempt only leaves its returned text (or nothing, when it raised) in the loop variable |
| ModuleProcessor.LaterAttempts | src/services/enhanced_module_processor.py:146-180 | from the second attempt on, what the loop held before no longer matters: the second attempt if accepted, else the last result |
| ModuleProcessor.LastResultKept | src/services/enhanced_module_processor.py:172-185 | after the third attempt the kept text is the third attempt's own text when it has at least 100 stripped characters, else the fallback (also when the third attempt raised) |
| ModuleProcessor.ChosenContent | src/services/enhanced_module_processor.py:142-185 | the content chosen for any module has at least 100 stripped characters |
| ModuleProcessor.WithoutModule | src/services/enhanced_module_processor.py:261-264 | the filter keeps exactly the failure entries naming another module |
| ModuleProcessor.WithoutModuleOnce | src/services/enhanced_module_processor.py:261-264 | filtering out a name listed once removes exactly one entry and keeps the others distinct |
| ModuleProcessor.WithoutAbsent | src/services/enhanced_module_processor.py:261-264 | filtering out a name not listed leaves the list as it was |
| ModuleProcessor.MissingNames | src/services/enhanced_module_processor.py:416-419 | `missing_modules` holds exactly the configured names absent from `modules_generated` |
| ModuleProcessor.MissingDistinct | src/services/enhanced_module_processor.py:416-419 | the missing names are distinct when the configured names are |
| ModuleProcessor.MainStepBooks | src/services/enhanced_module_processor.py:138-221 | one main-loop iteration keeps the books: the counters equal their lists' lengths, no module listed twice, each processed module listed once as generated or as failed |
| ModuleProcessor.MainPassBooks | src/services/enhanced_module_processor.py:138-221 | after the main loop every configured module is counted exactly once: `successful_modules + failed_modules` is the number of modules |
| ModuleProcessor.MainStepWrites | src/services/enhanced_module_processor.py:188-196 | a persisted main write replaces the module's file with the chosen text and counts the module as generated, leaving the failures alone |
| ModuleProcessor.EnsureStepBooks | src/services/enhanced_module_processor.py:240-266 | one sweep iteration keeps the books: a newly delivered module moves from the failures to the generated list |
| ModuleProcessor.EnsurePassBooks | src/services/enhanced_module_processor.py:238-266 | the whole sweep keeps the books |
| ModuleProcessor.EnsurePassSaves | src/services/enhanced_module_processor.py:238-266 | when the sweep's writes persist it does not abort, every swept module has a non-empty file, and saved files stay saved |
| ModuleProcessor.EnsureAbortSticks | src/services/enhanced_module_processor.py:238-266 | a write that raises ends the sweep: later modules are not visited |
| ModuleProcessor.ForcePassFacts | src/services/enhanced_module_processor.py:424-441 | when the forced writes persist, each missing module is written, appended to `modules_generated` in order and counted |
| ModuleProcessor.ForceCompletes | src/services/enhanced_module_processor.py:413-441 | the forced creation completes `modules_generated` to exactly the configured modules, each once, with `successful_modules` equal to their number |
| ModuleProcessor.SweptComplete | src/services/enhanced_module_processor.py:232 | when `successful_modules` is not below the number of modules the generated list already holds every configured module once |
| ModuleProcessor.AllModulesDelivered | src/services/enhanced_module_processor.py:114-236 | when the sweep's and the forced writes persist, generation is not aborted, every configured module has a non-empty file and is listed once, and `successful_modules` equals the number of modules |
| ModuleProcessor.DeliveredWithTexts | src/services/enhanced_module_processor.py:114-236 | the same guarantee with the texts the generator itself makes |
| ModuleProcessor.SixteenModulesDelivered | src/services/enhanced_module_processor.py:29-236 | for the sixteen configured modules, all sixteen are reported generated even when every AI call fails |
| ModuleProcessor.StaleFileCountedTwice | src/services/enhanced_module_processor.py:200-266 | a module whose main and emergency writes both raise in `open` while an old file is still there is counted both as generated and as failed |
| ModuleProcessor.TruncatedFileSwept | src/services/enhanced_module_processor.py:186-266 | when the main write raises inside `write` after `open(..., 'w')` has emptied the old file, and the emergency write raises too, the sweep finds the empty file, writes the emergency text and moves the module from the failures to the generated list: counted once, generated |
| ModuleProcessor.EmergencyTextsNonEmpty | src/services/enhanced_module_processor.py:363-411 | every emergency text is non-empty, so its write leaves a non-empty file |
| ModuleProcessor.ModuleStore.Write | src/services/enhanced_module_processor.py:188-190 | a write reports the environment's outcome; it replaces the file when it persists, removes it when it is missing afterwards, empties it when `write` raises after `open` truncated it, and leaves it alone when `open` raises |
| ModuleProcessor.Results.constructor | src/services/enhanced_module_processor.py:121-128 | the results record starts with the session, the configured total, zero counters and empty lists |
| ModuleProcessor.ModuleStore.constructor | src/services/enhanced_module_processor.py:131-132 | the module directory starts with the files already on disk |
| ModuleProcessor.RunAttempts | src/services/enhanced_module_processor.py:142-180 | the attempt loop with its `break` and `continue`s computes the specified attempt result |
| ModuleProcessor.ChooseContent | src/services/enhanced_module_processor.py:142-185 | the chosen content is the specified one and has at least 100 stripped characters |
| ModuleProcessor.StoreModule | src/services/enhanced_module_processor.py:187-221 | storing a module's content (with its emergency path) changes the results and the directory as one main-loop step |
| ModuleProcessor.GenerateModule | src/services/enhanced_module_processor.py:139-221 | one main-loop iteration changes the results and the directory as specified |
| ModuleProcessor.GenerateEachModule | src/services/enhanced_module_processor.py:138-221 | the main loop changes the results and the directory as the main pass |
| ModuleProcessor.EnsureModule | src/services/enhanced_module_processor.py:240-266 | one sweep iteration, including a write that raises |
| ModuleProcessor.EnsureAllModulesExist | src/services/enhanced_module_processor.py:238-266 | the sweep changes the results and the directory as the sweep pass, and reports the error of a write that raised |
| ModuleProcessor.CollectMissing | src/services/enhanced_module_processor.py:416-419 | the loop collects exactly the missing names, in configuration order |
| ModuleProcessor.ForceModule | src/services/enhanced_module_processor.py:424-441 | one forced creation; a write that raises is skipped |
| ModuleProcessor.ForceCreateMissingModules | src/services/enhanced_module_processor.py:413-441 | the forced creation changes the results and the directory as the force pass over the missing names |
| ModuleProcessor.RunGeneration | src/services/enhanced_module_processor.py:121-236 | a fresh results record for the session and the configured count; main loop, sweep and (below the total) forced creation as specified |
| ModuleProcessor.GenerateAllModules | src/services/enhanced_module_processor.py:114-236 | `generate_all_modules` with the generator's own texts as specified |
| ModuleProcessor.MainLoop | src/services/enhanced_module_processor.py:138-221 | the loop over the configured modules, in declaration order, changes the results and the directory as the main pass |
| ReportCompiler.Loaded | src/services/comprehensive_report_generator_v3.py:270-301 | a module is loaded exactly when it is in `modules_order` and its file has more than 100 stripped characters, with the file's content |
| ReportCompiler.LoadAvailableModules | src/services/comprehensive_report_generator_v3.py:270-301 | the loading loop yields no modules for a missing directory (which it then creates, empty) and the loadable ones otherwise |
| ReportCompiler.LoadedExtend | src/services/comprehensive_report_generator_v3.py:280-290 | one loop iteration adds the module exactly when its file is loadable |
| ReportCompiler.LoadedAll | src/services/comprehensive_report_generator_v3.py:270-301 | all modules are loaded (the count equals the configured number) exactly when every module's file is loadable |
| ReportCompiler.LoadedCount | src/services/comprehensive_report_generator_v3.py:280-290 | each loadable module adds one to the count |
| ReportCompiler.CompleteStatus | src/services/comprehensive_report_generator_v3.py:455 | the footer says "Completo" exactly when every configured module was loadable |
| ReportCompiler.IndexMarks | src/services/comprehensive_report_generator_v3.py:368-376 | the index has one line per module, numbered from 1, marked ✅ exactly when the module is loaded, ending with its title |
| ReportCompiler.SectionShows | src/services/comprehensive_report_generator_v3.py:432-444 | a module's section is headed by its title and holds its content when loaded, or points to the session directory when not |
| ReportCompiler.SectionContents | src/services/comprehensive_report_generator_v3.py:432-444 | one section per configured module, in order, with the same heading and content facts |
| ReportCompiler.FinalReportShowsModules | src/services/comprehensive_report_generator_v3.py:325-490 | the final report contains every module's heading, the content of each loaded module and the session path for each missing one |
| ReportCompiler.FinalReportHasSection | src/services/comprehensive_report_generator_v3.py:325-490 | the final report contains every module section |
| ReportCompiler.KeywordLines | src/services/comprehensive_report_generator_v3.py:385-386 | `stats_lines` holds exactly the lines naming one of the four keywords |
| ReportCompiler.KeywordLinesConcat | src/services/comprehensive_report_generator_v3.py:385 | the comprehension filters line by line: the keyword lines of two runs of lines are those of the first followed by those of the second, so every keyword line is kept, repeats included, in order |
| ReportCompiler.KeywordLinesSingle | src/services/comprehensive_report_generator_v3.py:385 | a single line is kept exactly when it names a keyword |
| ReportCompiler.StatBulletsFirstTen | src/services/comprehensive_report_generator_v3.py:386-392 | the collection summary lists the first ten keyword lines (or all, when fewer), each stripped as a bullet |
| ReportCompiler.BulletsOfNonBlank | src/services/comprehensive_report_generator_v3.py:390-392 | non-blank lines each become one bullet, in order |
| ReportCompiler.KeywordNotBlank | src/services/comprehensive_report_generator_v3.py:386-391 | a keyword line is never blank, so the blank-line test never skips one |
| ReportCompiler.SynthesisListsFirst | src/services/comprehensive_report_generator_v3.py:397-414 | the synthesis part numbers the first ten insights and the first eight opportunities |
| ReportCompiler.FileName | src/services/comprehensive_report_generator_v3.py:425 | `split('/')[-1]` is a suffix of the path with no slash |
| ReportCompiler.ShotEntryFacts | src/services/comprehensive_report_generator_v3.py:420-427 | screenshot entry `i` is headed `Evidência Visual i`, embeds the path, and ends with the viral note exactly when the file name mentions "viral" in any case |
| ReportCompiler.RawCollection | src/services/comprehensive_report_generator_v3.py:514 | the complete report quotes the first 5000 characters of the collection report, or the "not available" line |
| ReportCompiler.CompleteReportCarriesData | src/services/comprehensive_report_generator_v3.py:492-561 | the complete report contains the quoted collection data and the first 3000 characters of the synthesis JSON |
| ReportCompiler.HeaderCarries | src/services/comprehensive_report_generator_v3.py:500-523 | the complete report's header carries both quoted excerpts |
| ReportCompiler.CompleteReportShowsModules | src/services/comprehensive_report_generator_v3.py:531-539 | the complete report has every module's heading and every loaded module's content |
| ReportCompiler.CompleteSectionShows | src/services/comprehensive_report_generator_v3.py:532-539 | a complete-report section is headed by the title and holds the module when loaded |
| ReportCompiler.EstimatedPages | src/services/comprehensive_report_generator_v3.py:617 | `max(25, total // 2000)`: 25 exactly below 52000 characters, otherwise the number of whole 2000-character pages |
| ReportCompiler.ReportStatistics | src/services/comprehensive_report_generator_v3.py:597-626 | compiled plus missing equals the configured count; total characters are both reports' lengths; pages at least 25; sections and evidence counts agree |
| ReportCompiler.ScreenshotPaths | src/services/comprehensive_report_generator_v3.py:303-323 | no paths for a missing directory, otherwise one `files/<dir>/<name>` path per PNG, in the directory's order |
| ReportCompiler.LoadScreenshotPaths | src/services/comprehensive_report_generator_v3.py:303-323 | the loop builds exactly those paths |
| ReportCompiler.NoModulesAborts | src/services/comprehensive_report_generator_v3.py:88-91 | as written, a session with no loadable module always ends in the failure result carrying the missing-attribute error |
| ReportCompiler.EmergencyModules | src/services/comprehensive_report_generator_v3.py:153-238 | a configured module enters the emergency map exactly when its file write succeeds; a raising write is skipped; the modules directory exists by then, since loading created it when missing |
| ReportCompiler.EmergencyModulesCount | src/services/comprehensive_report_generator_v3.py:153-238 | one emergency module per configured module whose write succeeds: all of them when every write succeeds, and none exactly when every write raises |
| ReportCompiler.NoModulesCompilesEmergency | src/services/comprehensive_report_generator_v3.py:62-151 | with the emergency modules reachable, a compilation whose report writes succeed always succeeds; with no loadable module it compiles one emergency module per successful emergency write, so every configured module when those writes succeed, also when `modules/` was missing, since loading created it (line 277) |
| ReportCompiler.FinishCompiles | src/services/comprehensive_report_generator_v3.py:93-142 | when both writes succeed the result is a success naming the final report's path and the loaded count |
| ReportCompiler.SaveErrorReported | src/services/comprehensive_report_generator_v3.py:144-151 | a failing final-report write gives the failure result with its error |
| ReportCompiler.AppendLines | src/services/comprehensive_report_generator_v3.py:325-490 | appending the report's lines in a loop gives their concatenation |
| ReportCompiler.CompileReportContent | src/services/comprehensive_report_generator_v3.py:325-490 | the report built by appending equals the specified final report |
| ReportCompiler.CreateCompleteReport | src/services/comprehensive_report_generator_v3.py:492-561 | the report built by appending equals the specified complete report |
| ReportCompiler.CreateEmergencyModules | src/services/comprehensive_report_generator_v3.py:153-238 | the loop builds exactly the emergency module map, writing into the modules directory loading made sure of and skipping each module whose write raises |
| ReportCompiler.CompileFinalMarkdownReport | src/services/comprehensive_report_generator_v3.py:62-151 | the whole compilation gives the specified result (with the emergency modules reachable), whose emergency branch writes into the directory loading created when it was missing |
| StableSort.InsertDesc | src/services/visual_content_capture.py:316 | inserting into a list sorted by descending key keeps it sorted and adds exactly the new element |
| StableSort.SortDesc | src/services/visual_content_capture.py:316 | `sort(key=..., reverse=True)`: the result is sorted by descending key and is a permutation of the input |
| StableSort.SortDescStable | src/services/visual_content_capture.py:316 | the sort is stable: the elements sharing any one key keep their original relative order |
| StableSort.InsertDescStable | src/services/visual_content_capture.py:316 | one insertion keeps the order of equal-key elements, the new one going behind them |
| StableSort.SortDescSorted | src/services/visual_content_capture.py:320 | sorting an already sorted list leaves it unchanged |
| StableSort.TakeSorted | src/services/visual_content_capture.py:317 | a prefix (`[:k]`) of a sorted list is sorted and drawn from it |
| StableSort.SortedPrefix | src/services/massive_data_collector.py:413-414 | a prefix of the sorted list is sorted, drawn from the input, and headed by an element of maximal key |
| StableSort.SortedKeeps | src/services/massive_data_collector.py:413 | a property of every input element holds of every sorted element |
| StableSort.PrefixBest | src/services/visual_content_capture.py:317 | the first n elements of a sorted permutation of a list leave out nothing whose key exceeds a kept key |
| StableSort.TakeSortedBest | src/services/visual_content_capture.py:316-317 | `sorted(..., reverse=True)[:n]` keeps min(n, len) elements, and what it leaves out has no larger key than anything it keeps |
| VisualCapture.EngagementScore | src/services/visual_content_capture.py:330-359 | an unknown platform scores 0; a YouTube post with at most one view scores (2·likes + 3·comments)·1000 |
| VisualCapture.YouTubeMonotone | src/services/visual_content_capture.py:333-337 | for the same views, more likes and comments never lower the YouTube score |
| VisualCapture.ToCandidate | src/services/visual_content_capture.py:304-312 | the candidate keeps the platform and the score, and falls back from views to likes, from retweets to shares and from title/text to caption |
| VisualCapture.Scored | src/services/visual_content_capture.py:301-313 | the candidates are of that platform and score above zero, at most one per post, and every post scoring above zero has its candidate there |
| VisualCapture.ScoredConcat | src/services/visual_content_capture.py:301-313 | scoring works post by post: the candidates of two runs of posts are those of the first run followed by those of the second, so each post adds its candidate once and in post order |
| VisualCapture.ScoredSingle | src/services/visual_content_capture.py:302-313 | one post adds its candidate when its score is above zero and nothing otherwise |
| VisualCapture.TopOf | src/services/visual_content_capture.py:292-317 | at most three candidates of one platform, sorted by descending score, all positive |
| VisualCapture.TopOfSelects | src/services/visual_content_capture.py:316-317 | the kept candidates number min(3, scored candidates), and no scored candidate left out (counted with multiplicity) scores above a kept one |
| VisualCapture.Pooled | src/services/visual_content_capture.py:292-317 | the pooled candidates come from the four platforms and have positive scores |
| VisualCapture.ViralPostsRanked | src/services/visual_content_capture.py:286-328 | at most ten viral posts, sorted by descending score, drawn from the pooled candidates, all positive |
| VisualCapture.ViralPostsSelect | src/services/visual_content_capture.py:320-321 | the viral posts number min(10, pooled candidates), and no pooled candidate left out scores above a kept one |
| VisualCapture.ViralPostsStable | src/services/visual_content_capture.py:320-321 | posts tied on a score appear in the order they were pooled (platform order, then rank) |
| VisualCapture.AtMostThreePerPlatform | src/services/visual_content_capture.py:292-321 | no platform contributes more than three viral posts |
| VisualCapture.PooledPerPlatform | src/services/visual_content_capture.py:292-317 | at most three pooled candidates per platform, none for a platform outside the list |
| VisualCapture.ScorePosts | src/services/visual_content_capture.py:300-313 | the scoring loop builds exactly the scored candidates |
| VisualCapture.IdentifyViralPosts | src/services/visual_content_capture.py:286-328 | the per-platform loop, the global sort and the cut to ten give the specified viral posts |
| VisualCapture.ScreenshotNameFormat | src/services/visual_content_capture.py:154 | `f"{platform}_post_{index:03d}.png"`: the platform, `_post_`, three digits reading back as the index, `.png` |
| VisualCapture.CaptureLoopCounts | src/services/visual_content_capture.py:228-262 | every viral post counts once, as captured (with its record) or as failed (with an error) |
| VisualCapture.CaptureAccounts | src/services/visual_content_capture.py:193-284 | captured plus failed equals the posts analysed, at most ten; one record per capture, one error per failure |
| VisualCapture.InvalidUrlSkipped | src/services/visual_content_capture.py:233-237 | a url not starting with `http://` or `https://` is never opened: it fails with `URL inválida: <url>` |
| VisualCapture.CapturedName | src/services/visual_content_capture.py:154-175 | a successful capture appends one record named after the platform and the index |
| VisualCapture.CaptureViralPostsScreenshots | src/services/visual_content_capture.py:193-284 | the capture loop gives the specified report, including the setup-failure path |
| VisualCapture.CountScoresMonotone | src/services/visual_content_capture.py:339-354 | on Twitter, Instagram and LinkedIn a score never drops when a count grows, and a post with no counts scores 0 |
| Pipeline.HundredCharacterModuleShownMissing | src/services/enhanced_module_processor.py:183-185 | a third-attempt text of exactly 100 stripped characters is what the generator writes, yet the compiler (which wants more than 100, comprehensive_report_generator_v3.py:286) does not load it |
| DataCollector.QueryTemplates | src/services/massive_data_collector.py:318-328 | there are exactly eight query templates |
| DataCollector.AdditionalQueries | src/services/massive_data_collector.py:311-330 | five additional queries when both `segmento` and `produto` are non-empty and none otherwise; they are the first five templates |
| DataCollector.AdditionalQueriesDistinct | src/services/massive_data_collector.py:318-330 | the additional queries are pairwise distinct and each mentions both the segment and the product |
| DataCollector.AdditionalResults | src/services/massive_data_collector.py:133-146 | the per-query result dictionary has exactly the additional queries as keys |
| DataCollector.AdditionalEntries | src/services/massive_data_collector.py:133-146 | distinct queries give one dictionary entry each |
| DataCollector.SearchAdditionalQueries | src/services/massive_data_collector.py:135-146 | the query loop stores, for every query, the hits of a 20-result search or its error marker |
| DataCollector.ActiveScores | src/services/massive_data_collector.py:345-357 | only platforms with posts are scored, and each score is ten times the platform's post count |
| DataCollector.EngagementCounts | src/services/massive_data_collector.py:345-349 | `total_posts` is the number of posts on all platforms, `platforms_active` is at most the number of platforms, and it is zero exactly when there are no posts |
| DataCollector.EngagementTop | src/services/massive_data_collector.py:359-361 | the top platforms are the min(3, active) best scores, highest first, drawn from the scored platforms, and the first is at least every score |
| DataCollector.ActivePosts | src/services/massive_data_collector.py:345-349 | summing the posts of the scored platforms gives the post total of all platforms |
| DataCollector.SumPostsZero | src/services/massive_data_collector.py:346-349 | with positive post counts, the sum is zero exactly when no platform is scored |
| DataCollector.AnalyzeSocialEngagement | src/services/massive_data_collector.py:332-370 | the platform loop, the sort and the cut computes the engagement summary |
| DataCollector.Bump | src/services/massive_data_collector.py:410 | incrementing a word's count keeps the frequency table well formed |
| DataCollector.Frequencies | src/services/massive_data_collector.py:405-410 | the frequency table is well formed: its order lists each counted word once (FrequenciesOrder gives that order) |
| DataCollector.FrequenciesOrder | src/services/massive_data_collector.py:405-410 | the dictionary's insertion order is the order in which the counted words first occur |
| DataCollector.FrequenciesCount | src/services/massive_data_collector.py:408-410 | a word is counted exactly when it occurs and is longer than three characters, and its count is its number of occurrences |
| DataCollector.Themes | src/services/massive_data_collector.py:421-426 | the themes are `top[2i] + " + " + top[2i+1]`, one per complete pair; an odd last word is dropped |
| DataCollector.TopWordsCounted | src/services/massive_data_collector.py:413-414 | min(20, distinct counted words) keywords, most frequent first, each a word of more than three characters with its true number of occurrences, and no counted word left out occurs more often than a kept one |
| DataCollector.ItemsCounted | src/services/massive_data_collector.py:405-413 | every entry of the frequency table is a long word with its true number of occurrences |
| DataCollector.KeywordsCounted | src/services/massive_data_collector.py:403-414 | the keywords of the joined post texts are the top words of that text: min(20, distinct counted words) of them, sorted by count, each counted correctly, none left out more frequent than a kept one |
| DataCollector.KeywordsStable | src/services/massive_data_collector.py:405-414 | words tied on a count are listed in first-occurrence order, and the keywords with that count are the earliest-occurring of them, in that order: the stable sort's tie-break |
| DataCollector.PostTextsLower | src/services/massive_data_collector.py:399-400 | every collected post text is lower case |
| DataCollector.LowerIsLower | src/services/massive_data_collector.py:400 | lower-casing gives a lower-case text |
| DataCollector.JoinLower | src/services/massive_data_collector.py:404 | joining lower-case texts with spaces gives a lower-case text |
| DataCollector.KeywordsLowerCase | src/services/massive_data_collector.py:400-414 | every keyword is its own lower-case form |
| DataCollector.WordLower | src/services/massive_data_collector.py:405 | each word split from a lower-case text is lower case |
| DataCollector.ThemesPairKeywords | src/services/massive_data_collector.py:419-428 | the themes pair up the first ten keywords: half of min(10, keywords), each joining keyword 2i and 2i+1 |
| DataCollector.HashtagsFound | src/services/massive_data_collector.py:417 | `hashtags_found` has min(10, distinct hashtags) entries, has no repeats, and each is a hashtag of some post |
| DataCollector.CollectPostTexts | src/services/massive_data_collector.py:384-403 | the post loop collects the lower-cased non-blank texts and all hashtags in post order |
| DataCollector.CountWords | src/services/massive_data_collector.py:407-410 | the word loop builds the frequency table |
| DataCollector.PairThemes | src/services/massive_data_collector.py:423-426 | the pairing loop builds the themes |
| DataCollector.ExtractTrendingTopics | src/services/massive_data_collector.py:372-434 | the method computes the trending summary: keywords, hashtags and at most five themes |
| DataCollector.SocialPhase | src/services/massive_data_collector.py:150-183 | a client failure leaves no platforms and its error; otherwise the platforms are kept; an error marker is present exactly when the engagement summary is absent |
| DataCollector.AllPostsOf | src/services/massive_data_collector.py:166-169 | the posts of all platforms, concatenated in platform order |
| DataCollector.ExecuteSocialCollection | src/services/massive_data_collector.py:150-183 | the social phase, with the sentiment failure cutting engagement and trending short |
| DataCollector.QualityOf | src/services/massive_data_collector.py:449-451 | `total_insights` is the insight count and `content_depth_score` is ten per insight, reaching the cap of 100 exactly at ten insights |
| DataCollector.DeepPhase | src/services/massive_data_collector.py:185-209 | a navigator failure keeps only its error; quality metrics are present exactly when consolidated content is |
| DataCollector.PooledUrls | src/services/massive_data_collector.py:259-309 | a URL is in the pool exactly when it is non-empty and a successful web search (coordinator, production or additional query), a social post or the deep navigation's sources report it |
| DataCollector.WebUrlsMembers | src/services/massive_data_collector.py:259-284 | a URL is collected from the web phase exactly when it is non-empty and one of its successful searches reports it |
| DataCollector.SocialUrlsMembers | src/services/massive_data_collector.py:286-294 | a URL is collected from the platforms exactly when some post of some platform has it, and it is non-empty |
| DataCollector.AddUrls | src/services/massive_data_collector.py:266-268 | the hit loop adds exactly the non-empty URLs to the set |
| DataCollector.CollectUrlsFromWebSearch | src/services/massive_data_collector.py:259-284 | the web collection adds the provider, production and additional-query URLs |
| DataCollector.AddAdditionalUrls | src/services/massive_data_collector.py:277-282 | the loop over the additional-query entries adds the URLs of every successful entry |
| DataCollector.AdditionalUrlsStep | src/services/massive_data_collector.py:278-282 | visiting one more query adds exactly that query's URLs |
| DataCollector.CollectUrlsFromSocialData | src/services/massive_data_collector.py:286-296 | the platform loop adds exactly the social URLs |
| DataCollector.CollectUrlsFromDeepNavigation | src/services/massive_data_collector.py:298-309 | the loop adds exactly the non-empty `fontes_detalhadas` URLs |
| DataCollector.SingleUrlContent | src/services/massive_data_collector.py:243-257 | an item is produced exactly when the extractor returns more than 500 characters; it holds the URL, the text and its length |
| DataCollector.KeepExtracted | src/services/massive_data_collector.py:231-241 | at most one item per submitted URL; each item's URL was submitted, its content is what the extractor gave, and it is longer than 500 characters |
| DataCollector.KeepExtractedComplete | src/services/massive_data_collector.py:231-241 | every submitted URL whose extraction is long enough has an item |
| DataCollector.TakeOfEnumeration | src/services/massive_data_collector.py:228 | the first k of an enumeration of a set are min(k, size) distinct members |
| DataCollector.SubmittedUrls | src/services/massive_data_collector.py:228 | min(100, pool size) distinct pooled URLs are submitted |
| DataCollector.ExtractContent | src/services/massive_data_collector.py:211-241 | pooling, submission and the result loop give the extracted items |
| DataCollector.StatisticsIgnoreAdditional | src/services/massive_data_collector.py:483-490 | the additional-query hits do not change the statistics |
| DataCollector.ContentLengthBound | src/services/massive_data_collector.py:508-511 | extracted items being longer than 500 characters, the total length is at least 501 per item |
| DataCollector.CalculateFinalStatistics | src/services/massive_data_collector.py:470-518 | the counting loops compute the per-type counts, their sum and the total content length |
| DataCollector.FailureStaysInItsPhase | src/services/massive_data_collector.py:101-209 | a failing coordinator, platform client or navigator leaves its error marker in its own phase and the other phases unchanged |
| DataCollector.CollectionTotals | src/services/massive_data_collector.py:470-540 | at most 100 extracted items, at least 501 characters each; the social count equals the engagement post total; the compact summary's counts add up to `total_sources` |
| DataCollector.ExecuteMassiveCollection | src/services/massive_data_collector.py:36-99 | the four phases and the statistics, in order, give the collection record |
| SynthesisEngine.PhaseCountBounds | src/services/ai_synthesis_engine.py:180-206 | for a positive analysis time t, phase k runs exactly when 60k < t, so the number of phases is ceil(t/60) |
| SynthesisEngine.PlannedPrefixTotal | src/services/ai_synthesis_engine.py:180-204 | the first k phases plan min(60k, t) seconds together |
| SynthesisEngine.PlannedSchedule | src/services/ai_synthesis_engine.py:176-206 | phases are numbered 1, 2, …; each plans between 1 and 60 seconds; together they plan exactly the analysis time; there are none for a non-positive time |
| SynthesisEngine.MasterPrompt | src/services/ai_synthesis_engine.py:119-133 | the prompt embeds the first min(len, 50000) characters of the report, unchanged |
| SynthesisEngine.PromptIgnoresTail | src/services/ai_synthesis_engine.py:133 | two reports that agree on their first 50000 characters give the same prompt |
| SynthesisEngine.JsonCandidateShape | src/services/ai_synthesis_engine.py:235-240 | there is a candidate exactly when the answer has a `{`; it is empty exactly when no `}` follows the first `{`, and otherwise runs from that `{` to the last `}` |
| SynthesisEngine.SliceShape | src/services/ai_synthesis_engine.py:235-239 | slicing from the first `{` to one past the last `}` gives either the empty text (no `}` after the `{`) or a text that opens with `{` and closes with `}` |
| SynthesisEngine.NoCloseFrom | src/services/ai_synthesis_engine.py:236 | when the last `}` lies before the first `{` (or there is none), no `}` follows the `{` |
| SynthesisEngine.CloseFrom | src/services/ai_synthesis_engine.py:238-239 | a `}` at or after the `{` gives a non-empty slice that opens with `{` and closes with `}` |
| SynthesisEngine.ExtractJson | src/services/ai_synthesis_engine.py:231-276 | the decoded candidate when there is a candidate and it decodes; the default structure when there is none (in particular without a `{`) or it does not decode |
| SynthesisEngine.UnclosedGivesDefault | src/services/ai_synthesis_engine.py:235-247 | an answer with a `{` but no `}` after it hands the decoder the empty text and gets the default structure back |
| SynthesisEngine.FallbackFigures | src/services/ai_synthesis_engine.py:278-290 | the fallback estimates one source per whole hundred words, records the report's length, word count and session, and differs from the default structure |
| SynthesisEngine.StudyOutcomeDependsOn | src/services/ai_synthesis_engine.py:119-229 | when the backend answers, the study result depends only on the first 50000 characters of the report |
| SynthesisEngine.SynthesisResults.constructor | src/services/ai_synthesis_engine.py:49-58 | the initial results record: no phases, no synthesis, no path, not successful |
| SynthesisEngine.StudyPhases | src/services/ai_synthesis_engine.py:176-206 | the phase loop produces the planned schedule and republishes it in the results, leaving the rest unchanged |
| SynthesisEngine.ExecuteActiveAiStudy | src/services/ai_synthesis_engine.py:109-229 | the phases, then the extracted JSON of the backend's answer, or the fallback synthesis when the backend raises |
| SynthesisEngine.AnalyzeAndSynthesize | src/services/ai_synthesis_engine.py:31-107 | success exactly when the report exists; a missing report leaves its error and no phases; otherwise the record holds the schedule, the study result and the path (absent when saving failed) |
| SynthesisEngine.Conclude | src/services/ai_synthesis_engine.py:88-95 | the final update stores the synthesis and its path and marks success, keeping the phases |
| AlibabaSearch.BuildProducts | src/services/alibaba_search.py:30-43 | the loop builds the first min(max_results, 50) products (none for a non-positive bound) |
| AlibabaSearch.MassiveSearch | src/services/alibaba_search.py:16-61 | a failed request gives its error; otherwise the products, their count and the market analysis with the verified and trade-assurance counts |
| AlibabaSearch.FlagCounts | src/services/alibaba_search.py:41-55 | among n products, ceil(n/3) are verified and ceil(n/2) have trade assurance |
| AlibabaSearch.PrefixProducts | src/services/alibaba_search.py:31-32 | the first n-1 of n products are the n-1 products |
| AlibabaSearch.ProductFacts | src/services/alibaba_search.py:33-42 | product i carries number i+1 in its title and url, a non-empty price range, 5 to 14 years of experience, and flags following i mod 3 and i mod 2 |
| AlibabaSearch.ProductUrlsDistinct | src/services/alibaba_search.py:40 | no two products share a url |
| AlibabaSearch.SearchCounts | src/services/alibaba_search.py:31-55 | a search reports min(max_results, 50) products (none for a non-positive bound) and ceil(n/3) verified and ceil(n/2) trade-assurance counts |
| ModuleConfig.ModuleNames | src/services/enhanced_module_processor.py:29-110 | sixteen configured names, pairwise distinct, in declaration order |
| ModuleConfig.Lookup | src/services/enhanced_module_processor.py:366 | a name has an entry exactly when it is configured, and the entry carries that name |
| ModuleConfig.LookupIn | src/services/enhanced_module_processor.py:276 | the lookup finds an entry exactly when some entry has the name, and returns an entry with that name |
| ModuleConfig.ModulesWellFormed | src/services/enhanced_module_processor.py:29-110 | the configuration has sixteen entries and no name configured twice |
| ModuleConfig.LookupModule | src/services/enhanced_module_processor.py:29-110 | looking up the i-th configured name yields the i-th entry |
| Text.TrimLeft | src/services/enhanced_module_processor.py:163 | removes exactly the leading whitespace: the result is a suffix, everything cut is whitespace, and it does not start with whitespace |
| Text.TrimRight | src/services/enhanced_module_processor.py:163 | removes exactly the trailing whitespace: the result is a prefix, everything cut is whitespace, and it does not end with whitespace |
| Text.Strip | src/services/enhanced_module_processor.py:163 | `str.strip()` is no longer than its input and neither starts nor ends with whitespace |
| Text.StripLengthBound | src/services/comprehensive_report_generator_v3.py:286 | stripping keeps every character between two non-blank ones |
| Text.StripKeepsPiece | src/services/enhanced_module_processor.py:183 | a text that contains a piece with non-blank ends strips to at least that piece's length |
| Text.Take | src/services/massive_data_collector.py:228 | `s[:n]` keeps the first min(n, len(s)) elements |
| Text.PySlice | src/services/ai_synthesis_engine.py:238 | `s[a:b]` is the slice when a < b <= len(s), and empty when b <= a |
| Text.FindChar | src/services/ai_synthesis_engine.py:235 | `find` gives -1 exactly when the character is absent, and otherwise its first position |
| Text.RFindChar | src/services/ai_synthesis_engine.py:236 | `rfind` gives -1 exactly when the character is absent, and otherwise its last position |
| Text.Lower | src/services/comprehensive_report_generator_v3.py:386 | `lower()` keeps the length and lower-cases every character |
| Text.ReplaceChar | src/services/enhanced_module_processor.py:276 | `replace` of one character keeps the length and replaces exactly the occurrences |
| Text.RemoveChar | src/services/visual_content_capture.py:334 | `replace(c, '')` keeps exactly the characters other than `c`, so none is `c`; it does not lengthen the text and changes nothing when there is no `c` |
| Text.RemoveCharConcat | src/services/visual_content_capture.py:334 | removal works piece by piece, so the characters kept stay in their order |
| Text.NatToString | src/services/alibaba_search.py:33-40 | the decimal text of a number is a non-empty string of digits, with no leading zero except for 0 itself |
| Text.NatToStringRoundTrip | src/services/alibaba_search.py:40 | the decimal text of a number reads back as that number |
| Text.NatToStringLength | src/services/visual_content_capture.py:154 | a number below 10^k has at most k digits |
| Text.ZeroPad | src/services/visual_content_capture.py:154 | `{index:03d}` is all digits, padded to the width unless the number is longer |
| Text.ZeroPadRoundTrip | src/services/visual_content_capture.py:154 | the padded text still reads back as the number |
| Text.IntRoundTrip | src/services/visual_content_capture.py:334 | `int(str(i))` is `i`, for every integer |
| Text.ParseIntPadded | src/services/visual_content_capture.py:334 | `int` ignores whitespace before and after the number |
| Text.ParseIntGrouped | src/services/visual_content_capture.py:334 | `int` reads two digit runs joined by one underscore as the digits run together |
| Text.Words | src/services/ai_synthesis_engine.py:283 | `split()` yields non-empty words without whitespace |
| Text.WordsBlank | src/services/ai_synthesis_engine.py:283 | `split()` is empty exactly when the text is all whitespace |
| Text.WordsAfterSpace | src/services/ai_synthesis_engine.py:283 | whitespace in front adds no word |
| Text.WordsFirstRun | src/services/ai_synthesis_engine.py:283 | a run of non-whitespace ending at whitespace or at the end is one whole word, followed by the words of the rest: runs are neither split nor merged |
| Text.WordsKeep | src/services/massive_data_collector.py:404-405 | every word of a text whose characters all satisfy a property also satisfies it |
| Text.SplitOn | src/services/comprehensive_report_generator_v3.py:385 | `split(c)` yields at least one part, none containing the separator |
| Text.SplitJoinRoundTrip | src/services/comprehensive_report_generator_v3.py:385 | joining the parts of `split(c)` with `c` gives back the text |

## Left out

- Clocks and timestamps (`datetime.now()`, `time.time()`, durations, `actual_duration`) are left out. Where a timestamp is written into a text, the model takes one `now` string as a parameter.
- Sleeps, `asyncio`, retries with back-off, and the `ThreadPoolExecutor` extraction pool are left out. Extraction is modelled sequentially over the submitted URLs, in submission order; the pool's completion order is not modelled.
- Floating-point values are left out: the `success_rate`/`taxa_completude` percentages, `avg_engagement_score`, `source_reliability_score`, `information_richness`, and the collection time. The engagement score is an exact `real`, not an IEEE double. The Alibaba rating `round(4.2 + 0.1 i, 1)` is kept in tenths as `42 + i`.
- Set iteration order (`list(all_urls)[:100]`, `list(set(hashtags))[:10]`) is an `iterate` parameter. It is only assumed to list each element once.
- Selenium and PIL (driver setup, page loading, element lookup, image optimisation) are reduced to a screenshot oracle. `cleanup_old_screenshots` is not part of this model.
- The wording of the Markdown and prompt templates is abbreviated to the fields and markers the properties name: titles, names, session ids, the error message, the `{session_id}` placeholder, the excerpts, and the index and section headings. The long fixed prose is not reproduced.
- JSON encoding and decoding: `json.loads` is a partial `parse` parameter, and `json.dumps(...)[:n]` excerpts are taken of a given JSON text.
- `_generate_consolidated_report`, the details of `_load_base_data`, and the persistence steps (`salvar_etapa`, `_save_massive_json`'s writes, `_save_synthesis_json`'s write, which is only a success flag) are not part of this model. Only the compact summary's figures are modelled.
- Logging is left out.
- `Text.Lower` lower-cases ASCII and Latin-1 capitals only; the full Unicode case mapping of `str.lower()` is not modelled. `Text.TitleCase` follows the same character set.
- AlibabaSearch: the HTTP request is modelled only as a possible exception (`requestError`), because its response is never read.
- Text.ParseInt: Python's `int` also accepts decimal digits of other scripts (Arabic-Indic, full-width and the like); the model accepts ASCII digits only, so such a YouTube view count scores 0 here. Surrounding whitespace, a sign and single underscores between digits are modelled.
- SynthesisEngine.SynthesisResults.constructor: `synthesis_json` starts as the empty dictionary `{}` in the source; the model starts it as `None`.
- VisualCapture.EngagementScore: the contract states the unknown-platform and the small-view YouTube cases. The Twitter, Instagram and LinkedIn weights are stated only through `CountScoresMonotone` and the function itself. Counts are integers; a non-numeric count (a `TypeError` caught as 0 in the source) is not modelled.
- DataCollector: only the integer part of `_analyze_content_quality` is modelled. Posts and hits are reduced to the fields the collector reads: the url, the four text fields and the hashtags.

## Findings

| source | as written | input that shows it | evidently intended | confidence | as-written member | corrected member |
|---|---|---|---|---|---|---|
| src/services/comprehensive_report_generator_v3.py:88-91 | when no module loads, `_create_emergency_modules` iterates `self.modules_config` (line 160), an attribute this class never defines; the `AttributeError` is caught and the compilation returns `success: False` | a session whose modules directory is missing, or holds no module file of more than 100 stripped characters | the emergency modules of the configured sixteen are created (each whose write succeeds) and the report is compiled from them | not executed | ReportCompiler.NoModulesAborts | ReportCompiler.NoModulesCompilesEmergency |
