/** The massive collection run of the data collector.

    Four phases run one after the other: web search, social platforms, deep
    navigation and content extraction. A phase whose collaborator raises keeps
    an `error` entry and the next phases still run. The URLs found by the first
    three phases are pooled into a set, at most 100 of them are handed to the
    content extractor, and long enough pages are kept. Final statistics count
    the sources per type, and a compact summary copies them.

    Every collaborator is an input: the search coordinator's answer, the
    production search, the social platform client, the failure (if any) of the
    sentiment analysis, the deep navigator, the content extractor, and the
    order in which the runtime enumerates a set. */
module DataCollector {
  import opened Wrappers
  import opened Text
  import opened StableSort
  import ModuleConfig

  /** What a collaborator call gives back: its value, or the text of the exception it raised. */
  datatype Outcome<T> = Ok(value: T) | Failed(error: string)

  /** The `segmento` and `produto` entries of the context ("" when absent). */
  datatype Context = Context(segmento: string, produto: string)

  // ---------------------------------------------------------------------------
  // phase data

  /** The coordinator's hit lists per provider (an absent list is empty). A hit
      is represented by its `url`, "" when it has none. */
  datatype Enhanced = Enhanced(exa: seq<string>, google: seq<string>, other: seq<string>)

  /** `web_search_data`: the coordinator's answer, the production search and
      one entry per additional query, each an answer or an error marker. */
  datatype WebSearchData = WebSearchData(
    enhanced: Outcome<Enhanced>,
    production: Outcome<seq<string>>,
    additional: map<string, Outcome<seq<string>>>)

  /** A social post: its `url`, the four text fields ("" when absent) and its hashtags. */
  datatype SocialPost = SocialPost(url: string, content: string, title: string, text: string,
                                   caption: string, hashtags: seq<string>)

  /** One entry of the client's `platforms` dictionary, in dictionary order. */
  datatype Platform = Platform(name: string, posts: seq<SocialPost>)

  datatype PlatformScore = PlatformScore(platform: string, score: nat, postsCount: nat)

  /** `engagement_metrics`, without the floating-point average. */
  datatype Engagement = Engagement(totalPosts: nat, platformsActive: nat, topPerformingPlatforms: seq<PlatformScore>)

  /** One `word: count` entry of `keywords_frequency`. */
  datatype WordCount = WordCount(word: string, count: nat)

  datatype Trending = Trending(keywordsFrequency: seq<WordCount>, hashtagsFound: seq<string>, commonThemes: seq<string>)

  /** `social_media_data`: the platforms (empty when the client failed), the
      engagement and trending summaries (absent when an error cut the phase
      short) and the error marker. */
  datatype SocialData = SocialData(platforms: seq<Platform>, engagement: Option<Engagement>,
                                   trending: Option<Trending>, error: Option<string>)

  /** The navigator's `conteudo_consolidado`: the URLs of `fontes_detalhadas` and `insights_principais`. */
  datatype Consolidated = Consolidated(fontes: seq<string>, insights: seq<string>)

  /** The integer part of `quality_metrics`. */
  datatype Quality = Quality(totalInsights: nat, contentDepthScore: nat)

  datatype DeepData = DeepData(consolidated: Option<Consolidated>, quality: Option<Quality>, error: Option<string>)

  datatype ExtractedItem = ExtractedItem(url: string, content: string, length: nat)

  datatype SourcesByType = SourcesByType(webSearch: nat, socialMedia: nat, deepNavigation: nat, extractedContent: nat)

  datatype Statistics = Statistics(totalSources: nat, totalContentLength: nat, sourcesByType: SourcesByType)

  datatype Metadata = Metadata(sessionId: string, query: string, context: Context, version: string)

  datatype MassiveData = MassiveData(metadata: Metadata, web: WebSearchData, social: SocialData, deep: DeepData,
                                     extracted: seq<ExtractedItem>, statistics: Statistics)

  /** The `summary` part of the compact record saved next to the full one. */
  datatype Summary = Summary(totalWebSources: nat, totalSocialSources: nat, totalDeepSources: nat,
                             totalExtractedContent: nat, totalContentLength: nat)

  /** The collaborators of one run. `search(q, n)` is the production search
      with `max_results = n`; `extract(url)` is the extracted text, or None
      when the extractor gave nothing, raised or timed out; `iterate(s)` is the
      order in which the runtime lists the set `s`. */
  datatype Collaborators = Collaborators(
    enhanced: Outcome<Enhanced>,
    search: (string, nat) -> Outcome<seq<string>>,
    platforms: Outcome<seq<Platform>>,
    sentimentError: Option<string>,
    navigation: Outcome<Option<Consolidated>>,
    extract: string -> Option<string>,
    iterate: set<string> -> seq<string>)

  const Version := "ARQV30_Enhanced_v3.0"

  /** `order` lists every element of `s` exactly once. */
  ghost predicate Enumerates(order: seq<string>, s: set<string>) {
    ModuleConfig.Distinct(order) && forall x :: x in order <==> x in s
  }

  // ---------------------------------------------------------------------------
  // phase 1: web search

  /** The f-string `a{x}b{y}c`. */
  function Fill(a: string, x: string, b: string, y: string, c: string): string {
    a + x + b + y + c
  }

  /** The eight additional-query templates. */
  function QueryTemplates(s: string, p: string): (r: seq<string>)
    ensures |r| == 8
  {
    [Fill("", s, " ", p, " mercado brasileiro 2024"),
     Fill("", s, " ", p, " concorrentes Brasil"),
     Fill("", s, " ", p, " tendências futuro"),
     Fill("como vender ", p, " ", s, ""),
     Fill("estratégias marketing ", s, " ", p, ""),
     Fill("público-alvo ", s, " ", p, ""),
     Fill("preços ", p, " ", s, " Brasil"),
     Fill("cases sucesso ", s, " ", p, "")]
  }

  /** `_generate_additional_queries`: the first five templates when both
      `segmento` and `produto` are non-empty, none otherwise. */
  function AdditionalQueries(c: Context): (r: seq<string>)
    ensures |r| == (if c.segmento != "" && c.produto != "" then 5 else 0)
    ensures r == QueryTemplates(c.segmento, c.produto)[..|r|]
  {
    Take(if c.segmento != "" && c.produto != "" then QueryTemplates(c.segmento, c.produto) else [], 5)
  }

  /** Each additional query names both the segment and the product, and no two
      coincide, so each gets its own entry in `additional_queries_results`. */
  lemma AdditionalQueriesDistinct(c: Context)
    ensures ModuleConfig.Distinct(AdditionalQueries(c))
    ensures forall i :: 0 <= i < |AdditionalQueries(c)| ==>
      Contains(AdditionalQueries(c)[i], c.segmento) && Contains(AdditionalQueries(c)[i], c.produto)
  {
    var s, p := c.segmento, c.produto;
    var qs := AdditionalQueries(c);
    if qs != [] {
      var t := QueryTemplates(s, p);
      Carries("", s, " ", p, " mercado brasileiro 2024");
      Carries("", s, " ", p, " concorrentes Brasil");
      Carries("", s, " ", p, " tendências futuro");
      Carries("como vender ", p, " ", s, "");
      Carries("estratégias marketing ", s, " ", p, "");
      assert |t[0]| == |s| + |p| + 25;
      assert |t[1]| == |s| + |p| + 21;
      assert |t[2]| == |s| + |p| + 19;
      assert |t[3]| == |s| + |p| + 13;
      assert |t[4]| == |s| + |p| + 23;
    }
  }

  /** One entry per query: the search's answer with `max_results = 20`. */
  function AdditionalResults(queries: seq<string>, search: (string, nat) -> Outcome<seq<string>>)
    : (r: map<string, Outcome<seq<string>>>)
    ensures forall q :: q in r <==> q in queries
  {
    map q | q in queries :: search(q, 20)
  }

  /** Distinct queries give as many entries as queries. */
  lemma AdditionalEntries(queries: seq<string>, search: (string, nat) -> Outcome<seq<string>>)
    requires ModuleConfig.Distinct(queries)
    ensures |AdditionalResults(queries, search)| == |queries|
  {
    var r := AdditionalResults(queries, search);
    assert r.Keys == set q | q in queries;
    ModuleConfig.DistinctCard(queries);
  }

  /** `_execute_massive_web_search`: the three calls are independent; each
      failure becomes that entry's error marker. */
  function WebPhase(query: string, context: Context, c: Collaborators): WebSearchData {
    WebSearchData(c.enhanced, c.search(query, 50), AdditionalResults(AdditionalQueries(context), c.search))
  }

  /** The loop over the additional queries. */
  method SearchAdditionalQueries(queries: seq<string>, search: (string, nat) -> Outcome<seq<string>>)
    returns (results: map<string, Outcome<seq<string>>>)
    ensures results == AdditionalResults(queries, search)
  {
    results := map[];
    for i := 0 to |queries|
      invariant results == AdditionalResults(queries[..i], search)
    {
      assert queries[..i + 1] == queries[..i] + [queries[i]];
      results := results[queries[i] := search(queries[i], 20)];
    }
    assert queries[..|queries|] == queries;
  }

  // ---------------------------------------------------------------------------
  // phase 2: social platforms

  /** Every post of every platform, in dictionary order. */
  function AllPosts(ps: seq<Platform>): (r: seq<SocialPost>) {
    if ps == [] then [] else AllPosts(ps[..|ps| - 1]) + ps[|ps| - 1].posts
  }

  /** The platforms with posts, each scored 10 per post, in dictionary order. */
  function ActiveScores(ps: seq<Platform>): (r: seq<PlatformScore>)
    ensures |r| <= |ps|
    ensures forall i :: 0 <= i < |r| ==> r[i].postsCount > 0 && r[i].score == 10 * r[i].postsCount
  {
    if ps == [] then []
    else
      var last := ps[|ps| - 1];
      ActiveScores(ps[..|ps| - 1])
        + (if last.posts != [] then [PlatformScore(last.name, |last.posts| * 10, |last.posts|)] else [])
  }

  function ScoreKey(p: PlatformScore): real {
    p.score as real
  }

  function SumPosts(scores: seq<PlatformScore>): nat {
    if scores == [] then 0 else SumPosts(scores[..|scores| - 1]) + scores[|scores| - 1].postsCount
  }

  /** The number of posts over all platforms. */
  function PostTotal(ps: seq<Platform>): nat {
    if ps == [] then 0 else PostTotal(ps[..|ps| - 1]) + |ps[|ps| - 1].posts|
  }

  /** `_analyze_social_engagement`. */
  function EngagementOf(ps: seq<Platform>): Engagement {
    var scores := ActiveScores(ps);
    Engagement(SumPosts(scores), |scores|, Take(SortDesc(scores, ScoreKey), 3))
  }

  /** The engagement summary counts every post of every platform, and it is
      empty exactly when no platform has posts. */
  lemma EngagementCounts(ps: seq<Platform>)
    ensures var e := EngagementOf(ps);
      && e.totalPosts == PostTotal(ps)
      && e.platformsActive <= |ps|
      && (e.platformsActive == 0 <==> e.totalPosts == 0)
  {
    ActivePosts(ps);
    SumPostsZero(ActiveScores(ps));
  }

  /** At most three platforms are ranked, best first, each scored ten per post;
      the first has the highest score of all active platforms. */
  lemma EngagementTop(ps: seq<Platform>)
    ensures var e := EngagementOf(ps);
      var top := e.topPerformingPlatforms;
      && |top| == (if e.platformsActive < 3 then e.platformsActive else 3)
      && SortedDesc(top, ScoreKey)
      && multiset(top) <= multiset(ActiveScores(ps))
      && (forall i :: 0 <= i < |top| ==> top[i].score == 10 * top[i].postsCount)
      && (forall s :: s in ActiveScores(ps) && top != [] ==> top[0].score >= s.score)
  {
    var scores := ActiveScores(ps);
    var top := EngagementOf(ps).topPerformingPlatforms;
    SortedPrefix(scores, ScoreKey, |top|);
    forall i | 0 <= i < |top|
      ensures top[i].score == 10 * top[i].postsCount
    {
      assert top[i] in multiset(scores);
    }
  }

  lemma {:induction false} ActivePosts(ps: seq<Platform>)
    ensures SumPosts(ActiveScores(ps)) == PostTotal(ps)
  {
    if ps != [] {
      var init := ps[..|ps| - 1];
      ActivePosts(init);
      var last := ps[|ps| - 1];
      var a := ActiveScores(init);
      if last.posts != [] {
        var s := PlatformScore(last.name, |last.posts| * 10, |last.posts|);
        assert (a + [s])[..|a|] == a;
      } else {
        assert a + [] == a;
      }
    }
  }

  lemma SumPostsZero(scores: seq<PlatformScore>)
    requires forall i :: 0 <= i < |scores| ==> scores[i].postsCount > 0
    ensures SumPosts(scores) == 0 <==> scores == []
  {
  }

  /** The loop of `_analyze_social_engagement` and the sort that follows it. */
  method AnalyzeSocialEngagement(ps: seq<Platform>) returns (e: Engagement)
    ensures e == EngagementOf(ps)
  {
    var totalPosts, platformsActive := 0, 0;
    var scores: seq<PlatformScore> := [];
    for i := 0 to |ps|
      invariant scores == ActiveScores(ps[..i])
      invariant totalPosts == SumPosts(scores) && platformsActive == |scores|
    {
      assert ps[..i + 1][..i] == ps[..i];
      var posts := ps[i].posts;
      if posts != [] {
        totalPosts := totalPosts + |posts|;
        platformsActive := platformsActive + 1;
        var score := PlatformScore(ps[i].name, |posts| * 10, |posts|);
        assert (scores + [score])[..|scores|] == scores;
        scores := scores + [score];
      }
    }
    assert ps[..|ps|] == ps;
    var sorted := SortDesc(scores, ScoreKey);
    e := Engagement(totalPosts, platformsActive, Take(sorted, 3));
  }

  /** The text a post contributes: each non-empty field followed by a space. */
  function PostText(p: SocialPost): string {
    (if p.content != "" then p.content + " " else "")
    + (if p.title != "" then p.title + " " else "")
    + (if p.text != "" then p.text + " " else "")
    + (if p.caption != "" then p.caption + " " else "")
  }

  /** `all_text`: the lower-cased text of every post with some non-blank text. */
  function PostTexts(posts: seq<SocialPost>): seq<string> {
    if posts == [] then []
    else
      var last := posts[|posts| - 1];
      PostTexts(posts[..|posts| - 1]) + (if Strip(PostText(last)) != "" then [Lower(PostText(last))] else [])
  }

  /** Every hashtag of every post, in order. */
  function Hashtags(posts: seq<SocialPost>): seq<string> {
    if posts == [] then [] else Hashtags(posts[..|posts| - 1]) + posts[|posts| - 1].hashtags
  }

  function WordsOf(f: seq<WordCount>): (r: seq<string>)
    ensures |r| == |f|
    ensures forall i :: 0 <= i < |f| ==> r[i] == f[i].word
  {
    seq(|f|, i requires 0 <= i < |f| => f[i].word)
  }

  /** A dictionary from words to counts: its keys in insertion order, and the counts. */
  datatype WordFreq = WordFreq(order: seq<string>, counts: map<string, nat>)

  /** The keys listed in `order` are the keys of `counts`, each once. */
  ghost predicate WellFormed(fr: WordFreq) {
    ModuleConfig.Distinct(fr.order) && forall w :: w in fr.order <==> w in fr.counts
  }

  /** `word_freq[w] = word_freq.get(w, 0) + 1`: a new key goes last. */
  function Bump(fr: WordFreq, w: string): (r: WordFreq)
    ensures WellFormed(fr) ==> WellFormed(r)
  {
    if w in fr.counts then WordFreq(fr.order, fr.counts[w := fr.counts[w] + 1])
    else
      assert WellFormed(fr) ==> w !in fr.order;
      WordFreq(fr.order + [w], fr.counts[w := 1])
  }

  /** `word_freq.items()`. */
  function Items(fr: WordFreq): (r: seq<WordCount>)
    requires forall w :: w in fr.order ==> w in fr.counts
    ensures |r| == |fr.order|
    ensures forall i :: 0 <= i < |r| ==> r[i] == WordCount(fr.order[i], fr.counts[fr.order[i]])
  {
    seq(|fr.order|, i requires 0 <= i < |fr.order| => WordCount(fr.order[i], fr.counts[fr.order[i]]))
  }

  /** The word-frequency loop: words longer than three characters, counted. */
  function Frequencies(words: seq<string>): (r: WordFreq)
    ensures WellFormed(r)
  {
    if words == [] then WordFreq([], map[])
    else
      var w := words[|words| - 1];
      var fr := Frequencies(words[..|words| - 1]);
      if |w| > 3 then Bump(fr, w) else fr
  }

  /** The table has exactly the words longer than three characters, each
      counted as often as it occurs. */
  lemma {:induction false} FrequenciesCount(words: seq<string>)
    ensures var fr := Frequencies(words);
      && (forall w :: w in fr.counts <==> w in words && |w| > 3)
      && (forall w :: w in fr.counts ==> fr.counts[w] == multiset(words)[w])
  {
    if words != [] {
      var init := words[..|words| - 1];
      var w := words[|words| - 1];
      FrequenciesCount(init);
      assert words == init + [w];
      assert multiset(words) == multiset(init) + multiset{w};
    }
  }

  /** The position of the first occurrence of `w` in `s`; `|s|` when there is none. */
  ghost function FirstIndex(s: seq<string>, w: string): (i: nat)
    ensures i <= |s| && w !in s[..i]
    ensures i < |s| ==> s[i] == w
    ensures i == |s| ==> w !in s
  {
    if s == [] then 0
    else if s[0] == w then 0
    else
      var k := FirstIndex(s[1..], w);
      assert s[..k + 1] == [s[0]] + s[1..][..k];
      assert k == |s| - 1 ==> s == [s[0]] + s[1..];
      1 + k
  }

  lemma FirstIndexAt(s: seq<string>, w: string, i: nat)
    requires i < |s| && s[i] == w && w !in s[..i]
    ensures FirstIndex(s, w) == i
  {
  }

  /** A later occurrence does not move the first one. */
  lemma FirstIndexExtend(s: seq<string>, x: string, w: string)
    requires x in s
    ensures FirstIndex(s + [w], x) == FirstIndex(s, x)
  {
    var k := FirstIndex(s, x);
    assert (s + [w])[..k] == s[..k];
    FirstIndexAt(s + [w], x, k);
  }

  /** `ws` lists words in the order of their first occurrences in `words`. */
  ghost predicate InFirstOrder(ws: seq<string>, words: seq<string>) {
    forall i, j :: 0 <= i < j < |ws| ==> FirstIndex(words, ws[i]) < FirstIndex(words, ws[j])
  }

  /** The table lists its words in the order in which they first occur: the
      insertion order of the dictionary, which the stable sort keeps among
      words with the same count. */
  lemma {:induction false} FrequenciesOrder(words: seq<string>)
    ensures InFirstOrder(Frequencies(words).order, words)
    decreases |words|
  {
    if words != [] {
      var init := words[..|words| - 1];
      var w := words[|words| - 1];
      var fr := Frequencies(init);
      FrequenciesOrder(init);
      FrequenciesKeys(init);
      assert init + [w] == words;
      if |w| > 3 && w !in fr.counts {
        FirstOrderAppend(fr.order, init, w);
      } else {
        FirstOrderExtend(fr.order, init, w);
      }
    }
  }

  lemma FrequenciesKeys(words: seq<string>)
    ensures forall x :: x in Frequencies(words).order <==> x in words && |x| > 3
  {
    FrequenciesCount(words);
  }

  /** A later word leaves the first occurrences of the earlier ones in place. */
  lemma FirstOrderExtend(ws: seq<string>, init: seq<string>, w: string)
    requires InFirstOrder(ws, init) && forall x :: x in ws ==> x in init
    ensures InFirstOrder(ws, init + [w])
  {
    forall x | x in ws ensures FirstIndex(init + [w], x) == FirstIndex(init, x) {
      FirstIndexExtend(init, x, w);
    }
    forall i, j | 0 <= i < j < |ws| ensures FirstIndex(init + [w], ws[i]) < FirstIndex(init + [w], ws[j]) {
      assert ws[i] in ws && ws[j] in ws;
    }
  }

  /** A word occurring for the first time goes behind all earlier ones. */
  lemma FirstOrderAppend(ws: seq<string>, init: seq<string>, w: string)
    requires InFirstOrder(ws, init) && (forall x :: x in ws ==> x in init) && w !in init
    ensures InFirstOrder(ws + [w], init + [w])
  {
    var words := init + [w];
    assert words[..|init|] == init;
    FirstIndexAt(words, w, |init|);
    FirstOrderExtend(ws, init, w);
    var o := ws + [w];
    forall i, j | 0 <= i < j < |o| ensures FirstIndex(words, o[i]) < FirstIndex(words, o[j]) {
      assert o[i] == ws[i] && ws[i] in ws;
      if j < |ws| {
        assert o[j] == ws[j];
      }
    }
  }

  /** The entries of `es` are listed in the order in which their words first occur. */
  ghost predicate EntriesInFirstOrder(es: seq<WordCount>, words: seq<string>) {
    forall i, j :: 0 <= i < j < |es| ==> FirstIndex(words, es[i].word) < FirstIndex(words, es[j].word)
  }

  lemma {:induction false} WithKeyFirstOrder(es: seq<WordCount>, words: seq<string>, v: real)
    requires EntriesInFirstOrder(es, words)
    ensures EntriesInFirstOrder(WithKey(es, CountKey, v), words)
    decreases |es|
  {
    if es != [] {
      var t := es[1..];
      assert EntriesInFirstOrder(t, words) by {
        forall i, j | 0 <= i < j < |t| ensures FirstIndex(words, t[i].word) < FirstIndex(words, t[j].word) {
          assert t[i] == es[i + 1] && t[j] == es[j + 1];
        }
      }
      WithKeyFirstOrder(t, words, v);
      WithKeyFrom(t, CountKey, v);
      var rest := WithKey(t, CountKey, v);
      forall x | x in rest ensures FirstIndex(words, es[0].word) < FirstIndex(words, x.word) {
        var k :| 0 <= k < |t| && t[k] == x;
        assert es[k + 1] == x;
      }
    }
  }

  /** Words with the same count appear among the keywords in the order of
      their first occurrences, and those kept are the earliest-occurring of
      them: the tie order of `sorted(word_freq.items(), ..., reverse=True)`. */
  lemma KeywordsStable(texts: seq<string>, v: real)
    ensures var words := Words(Join(texts, " "));
      var tied := WithKey(Items(Frequencies(words)), CountKey, v);
      var kept := WithKey(Keywords(texts), CountKey, v);
      && EntriesInFirstOrder(tied, words)
      && |kept| <= |tied| && kept == tied[..|kept|]
  {
    var words := Words(Join(texts, " "));
    var all := Items(Frequencies(words));
    FrequenciesOrder(words);
    WithKeyFirstOrder(all, words, v);
    if texts == [] {
      assert Words("") == [];
    } else {
      SortDescStable(all, CountKey, v);
      WithKeyTake(SortDesc(all, CountKey), CountKey, v, 20);
    }
  }

  function CountKey(e: WordCount): real {
    e.count as real
  }

  /** `common_themes` before the cap: "a + b" for consecutive pairs, a trailing
      odd word dropped. */
  function Themes(top: seq<string>): (r: seq<string>)
    ensures |r| == |top| / 2
    ensures forall i :: 0 <= i < |r| ==> r[i] == top[2 * i] + " + " + top[2 * i + 1]
  {
    if |top| < 2 then []
    else
      var rest := Themes(top[2..]);
      assert forall i :: 0 <= i < |rest| ==> top[2..][2 * i] == top[2 * (i + 1)];
      [top[0] + " + " + top[1]] + rest
  }

  /** The twenty most frequent words, most frequent first; ties keep first-occurrence order. */
  function Keywords(texts: seq<string>): seq<WordCount> {
    if texts == [] then [] else TopWords(Words(Join(texts, " ")))
  }

  /** `dict(sorted(word_freq.items(), key=count, reverse=True)[:20])`. */
  function TopWords(words: seq<string>): seq<WordCount> {
    Take(SortDesc(Items(Frequencies(words)), CountKey), 20)
  }

  /** `_extract_trending_topics`. */
  function TrendingOf(posts: seq<SocialPost>, iterate: set<string> -> seq<string>): Trending {
    var keywords := Keywords(PostTexts(posts));
    var top := Take(WordsOf(keywords), 10);
    Trending(keywords, Take(iterate(set h | h in Hashtags(posts)), 10), Take(Themes(top), 5))
  }

  /** The top words: as many as there are distinct counted words, up to twenty,
      most frequent first, each a word of more than three characters counted as
      often as it occurs, and no counted word left out occurs more often than
      any kept one. */
  lemma TopWordsCounted(words: seq<string>)
    ensures var kw, all := TopWords(words), Items(Frequencies(words));
      && |kw| == (if |all| < 20 then |all| else 20)
      && SortedDesc(kw, CountKey)
      && BestOf(kw, all, CountKey)
      && (forall i :: 0 <= i < |kw| ==> Counted(words, kw[i]))
  {
    var kw := TopWords(words);
    var f := Items(Frequencies(words));
    ItemsCounted(words);
    SortedPrefix(f, CountKey, |kw|);
    SortedKeeps(f, CountKey, e => Counted(words, e));
    TakeSortedBest(f, CountKey, 20);
  }

  /** `e` is a word of more than three characters with the number of times it occurs. */
  ghost predicate Counted(words: seq<string>, e: WordCount) {
    |e.word| > 3 && e.word in words && e.count == multiset(words)[e.word] > 0
  }

  lemma ItemsCounted(words: seq<string>)
    ensures forall e :: e in Items(Frequencies(words)) ==> Counted(words, e)
  {
    var fr := Frequencies(words);
    var f := Items(fr);
    FrequenciesCount(words);
    forall e | e in f ensures Counted(words, e) {
      var k :| 0 <= k < |f| && f[k] == e;
      assert fr.order[k] in fr.order;
    }
  }

  /** The trending keywords of some post texts, as counted in their joined words:
      the top words of that text (none when there are no texts). */
  lemma KeywordsCounted(texts: seq<string>)
    ensures var kw, words := Keywords(texts), Words(Join(texts, " "));
      var all := Items(Frequencies(words));
      && |kw| == (if |all| < 20 then |all| else 20)
      && SortedDesc(kw, CountKey)
      && BestOf(kw, all, CountKey)
      && (forall i :: 0 <= i < |kw| ==> Counted(words, kw[i]))
  {
    if texts != [] {
      TopWordsCounted(Words(Join(texts, " ")));
    } else {
      assert Words("") == [];
    }
  }

  /** No character of `s` changes under `str.lower()`. */
  ghost predicate IsLower(s: string) {
    forall m :: 0 <= m < |s| ==> LowerChar(s[m]) == s[m]
  }

  /** The post texts are lower-cased. */
  lemma {:induction false} PostTextsLower(posts: seq<SocialPost>)
    ensures forall i :: 0 <= i < |PostTexts(posts)| ==> IsLower(PostTexts(posts)[i])
  {
    if posts != [] {
      var init := posts[..|posts| - 1];
      PostTextsLower(init);
      LowerIsLower(PostText(posts[|posts| - 1]));
    }
  }

  /** `str.lower()` is idempotent. */
  lemma LowerIsLower(s: string)
    ensures IsLower(Lower(s))
  {
    forall m | 0 <= m < |s| ensures LowerChar(Lower(s)[m]) == Lower(s)[m] {
      var c := s[m];
      assert Lower(s)[m] == LowerChar(c);
    }
  }

  lemma {:induction false} JoinLower(ps: seq<string>)
    requires forall i :: 0 <= i < |ps| ==> IsLower(ps[i])
    ensures IsLower(Join(ps, " "))
  {
    if |ps| > 1 {
      JoinLower(ps[1..]);
      var rest := Join(ps[1..], " ");
      assert Join(ps, " ") == ps[0] + " " + rest;
      assert IsLower(ps[0]);
    }
  }

  /** Counting is case-insensitive: every keyword is already lower-case. */
  lemma KeywordsLowerCase(posts: seq<SocialPost>)
    ensures forall i :: 0 <= i < |Keywords(PostTexts(posts))| ==>
      Lower(Keywords(PostTexts(posts))[i].word) == Keywords(PostTexts(posts))[i].word
  {
    var texts := PostTexts(posts);
    var kw := Keywords(texts);
    var joined := Join(texts, " ");
    var words := Words(joined);
    KeywordsAreWords(texts);
    PostTextsLower(posts);
    JoinLower(texts);
    forall i | 0 <= i < |kw|
      ensures Lower(kw[i].word) == kw[i].word
    {
      var j :| 0 <= j < |words| && words[j] == kw[i].word;
      WordLower(joined, j);
    }
  }

  lemma KeywordsAreWords(texts: seq<string>)
    ensures forall i :: 0 <= i < |Keywords(texts)| ==> Keywords(texts)[i].word in Words(Join(texts, " "))
  {
    KeywordsCounted(texts);
  }

  lemma WordLower(s: string, j: nat)
    requires IsLower(s) && j < |Words(s)|
    ensures Lower(Words(s)[j]) == Words(s)[j]
  {
    var w := Words(s)[j];
    WordKeeps(s, c => LowerChar(c) == c, j);
    assert forall n :: 0 <= n < |w| ==> LowerChar(w[n]) == w[n];
  }

  /** The themes pair the first ten keywords two by two, so there are at most five. */
  lemma ThemesPairKeywords(posts: seq<SocialPost>, iterate: set<string> -> seq<string>)
    ensures var t := TrendingOf(posts, iterate);
      var kw := t.keywordsFrequency;
      && |t.commonThemes| == (if |kw| < 10 then |kw| else 10) / 2
      && (forall i :: 0 <= i < |t.commonThemes| ==>
            t.commonThemes[i] == kw[2 * i].word + " + " + kw[2 * i + 1].word)
  {
  }

  /** The hashtags reported are distinct hashtags of the posts, at most ten. */
  lemma HashtagsFound(posts: seq<SocialPost>, iterate: set<string> -> seq<string>)
    requires Enumerates(iterate(set h | h in Hashtags(posts)), set h | h in Hashtags(posts))
    ensures var found := TrendingOf(posts, iterate).hashtagsFound;
      var all := set h | h in Hashtags(posts);
      && |found| == (if |all| < 10 then |all| else 10)
      && ModuleConfig.Distinct(found)
      && (forall h :: h in found ==> h in Hashtags(posts))
  {
    var all := set h | h in Hashtags(posts);
    assert TrendingOf(posts, iterate).hashtagsFound == Take(iterate(all), 10);
    TakeOfEnumeration(iterate(all), all, 10);
  }

  /** The post-text loop of `_extract_trending_topics`. */
  method CollectPostTexts(posts: seq<SocialPost>) returns (texts: seq<string>, hashtags: seq<string>)
    ensures texts == PostTexts(posts) && hashtags == Hashtags(posts)
  {
    texts, hashtags := [], [];
    for i := 0 to |posts|
      invariant texts == PostTexts(posts[..i]) && hashtags == Hashtags(posts[..i])
    {
      assert posts[..i + 1][..i] == posts[..i];
      var postText := PostText(posts[i]);
      if Strip(postText) != "" {
        texts := texts + [Lower(postText)];
      }
      hashtags := hashtags + posts[i].hashtags;
    }
    assert posts[..|posts|] == posts;
  }

  /** The word-frequency loop. */
  method CountWords(words: seq<string>) returns (freq: WordFreq)
    ensures freq == Frequencies(words)
  {
    freq := WordFreq([], map[]);
    for i := 0 to |words|
      invariant freq == Frequencies(words[..i])
    {
      assert words[..i + 1][..i] == words[..i];
      if |words[i]| > 3 {
        freq := Bump(freq, words[i]);
      }
    }
    assert words[..|words|] == words;
  }

  /** The `range(0, len(top_words), 2)` loop. */
  method PairThemes(top: seq<string>) returns (themes: seq<string>)
    ensures themes == Themes(top)
  {
    themes := [];
    var i := 0;
    while i < |top|
      invariant 0 <= i <= |top| + 1 && i % 2 == 0
      invariant |themes| == (if i < |top| then i else |top|) / 2
      invariant forall k :: 0 <= k < |themes| ==> themes[k] == top[2 * k] + " + " + top[2 * k + 1]
    {
      if i + 1 < |top| {
        themes := themes + [top[i] + " + " + top[i + 1]];
      }
      i := i + 2;
    }
  }

  method ExtractTrendingTopics(posts: seq<SocialPost>, iterate: set<string> -> seq<string>) returns (t: Trending)
    ensures t == TrendingOf(posts, iterate)
  {
    var texts, hashtags := CollectPostTexts(posts);
    var keywords: seq<WordCount> := [];
    if texts != [] {
      var words := Words(Join(texts, " "));
      var freq := CountWords(words);
      keywords := Take(SortDesc(Items(freq), CountKey), 20);
    }
    var found := Take(iterate(set h | h in hashtags), 10);
    var themes: seq<string> := [];
    if keywords != [] {
      themes := PairThemes(Take(WordsOf(keywords), 10));
    }
    t := Trending(keywords, found, Take(themes, 5));
  }

  /** `_execute_massive_social_collection`. A client failure leaves no
      platforms; a sentiment failure (only attempted when there are posts)
      keeps the platforms but skips engagement and trending. */
  function SocialPhase(c: Collaborators): (r: SocialData)
    ensures c.platforms.Failed? ==> r.error == Some(c.platforms.error) && r.platforms == []
    ensures c.platforms.Ok? ==> r.platforms == c.platforms.value
    ensures r.error.None? <==> r.engagement.Some?
  {
    match c.platforms
    case Failed(e) => SocialData([], None, None, Some(e))
    case Ok(ps) =>
      var posts := AllPosts(ps);
      if posts != [] && c.sentimentError.Some? then SocialData(ps, None, None, c.sentimentError)
      else SocialData(ps, Some(EngagementOf(ps)), Some(TrendingOf(posts, c.iterate)), None)
  }

  method AllPostsOf(ps: seq<Platform>) returns (posts: seq<SocialPost>)
    ensures posts == AllPosts(ps)
  {
    posts := [];
    for i := 0 to |ps|
      invariant posts == AllPosts(ps[..i])
    {
      assert ps[..i + 1][..i] == ps[..i];
      if ps[i].posts != [] {
        posts := posts + ps[i].posts;
      }
    }
    assert ps[..|ps|] == ps;
  }

  method ExecuteSocialCollection(c: Collaborators) returns (social: SocialData)
    ensures social == SocialPhase(c)
  {
    match c.platforms {
      case Failed(e) =>
        social := SocialData([], None, None, Some(e));
      case Ok(ps) =>
        var posts := AllPostsOf(ps);
        if posts != [] && c.sentimentError.Some? {
          social := SocialData(ps, None, None, c.sentimentError);
        } else {
          var engagement := AnalyzeSocialEngagement(ps);
          var trending := ExtractTrendingTopics(posts, c.iterate);
          social := SocialData(ps, Some(engagement), Some(trending), None);
        }
    }
  }

  // ---------------------------------------------------------------------------
  // phase 3: deep navigation

  /** `content_depth_score` is ten points per insight, capped at 100. */
  function QualityOf(cons: Consolidated): (q: Quality)
    ensures q.totalInsights == |cons.insights|
    ensures q.contentDepthScore <= 100
    ensures q.contentDepthScore == 100 <==> |cons.insights| >= 10
    ensures q.contentDepthScore < 100 ==> q.contentDepthScore == 10 * |cons.insights|
  {
    Quality(|cons.insights|, if |cons.insights| * 10 <= 100 then |cons.insights| * 10 else 100)
  }

  /** `_execute_deep_navigation`; an absent `conteudo_consolidado` stands also for an empty one. */
  function DeepPhase(nav: Outcome<Option<Consolidated>>): (r: DeepData)
    ensures nav.Failed? ==> r.error == Some(nav.error) && r.consolidated.None?
    ensures r.quality.Some? <==> r.consolidated.Some?
  {
    match nav
    case Failed(e) => DeepData(None, None, Some(e))
    case Ok(cons) => DeepData(cons, if cons.Some? then Some(QualityOf(cons.value)) else None, None)
  }

  // ---------------------------------------------------------------------------
  // URL pool

  /** The non-empty URLs among some hits. */
  function UrlsOf(hits: seq<string>): set<string> {
    set u | u in hits && u != ""
  }

  function EnhancedUrls(o: Outcome<Enhanced>): set<string> {
    match o
    case Ok(e) => UrlsOf(e.exa) + UrlsOf(e.google) + UrlsOf(e.other)
    case Failed(_) => {}
  }

  function ResultUrls(o: Outcome<seq<string>>): set<string> {
    match o
    case Ok(hits) => UrlsOf(hits)
    case Failed(_) => {}
  }

  /** The URLs of the additional-query entries whose keys are in `keys`. */
  function AdditionalUrls(m: map<string, Outcome<seq<string>>>, keys: set<string>): set<string> {
    set q, u | q in m && q in keys && u in ResultUrls(m[q]) :: u
  }

  function WebUrls(web: WebSearchData): set<string> {
    EnhancedUrls(web.enhanced) + ResultUrls(web.production) + AdditionalUrls(web.additional, web.additional.Keys)
  }

  function PostUrls(posts: seq<SocialPost>): set<string> {
    set i | 0 <= i < |posts| && posts[i].url != "" :: posts[i].url
  }

  function SocialUrls(ps: seq<Platform>): set<string> {
    if ps == [] then {} else SocialUrls(ps[..|ps| - 1]) + PostUrls(ps[|ps| - 1].posts)
  }

  function DeepUrls(deep: DeepData): set<string> {
    match deep.consolidated
    case Some(cons) => UrlsOf(cons.fontes)
    case None => {}
  }

  /** `all_urls` after the three `_collect_urls_from_*` calls. */
  function AllUrls(web: WebSearchData, social: SocialData, deep: DeepData): set<string> {
    WebUrls(web) + SocialUrls(social.platforms) + DeepUrls(deep)
  }

  /** Some search of the web phase reports `u`: the coordinator's answer, the
      production search or an additional query, each only when it succeeded. */
  ghost predicate WebReports(web: WebSearchData, u: string) {
    || (web.enhanced.Ok? && (u in web.enhanced.value.exa || u in web.enhanced.value.google
                             || u in web.enhanced.value.other))
    || (web.production.Ok? && u in web.production.value)
    || (exists q :: q in web.additional && web.additional[q].Ok? && u in web.additional[q].value)
  }

  /** Some post of some platform carries `u`. */
  ghost predicate SocialReports(social: SocialData, u: string) {
    exists i, j :: 0 <= i < |social.platforms| && 0 <= j < |social.platforms[i].posts|
                   && social.platforms[i].posts[j].url == u
  }

  /** A URL is pooled exactly when it is non-empty and some source reports it:
      a web search, a social post or the deep navigation's sources. */
  lemma PooledUrls(web: WebSearchData, social: SocialData, deep: DeepData, u: string)
    ensures u in AllUrls(web, social, deep)
        <==> u != "" && (|| WebReports(web, u)
                         || SocialReports(social, u)
                         || (deep.consolidated.Some? && u in deep.consolidated.value.fontes))
  {
    SocialUrlsMembers(social.platforms, u);
    WebUrlsMembers(web, u);
  }

  lemma WebUrlsMembers(web: WebSearchData, u: string)
    ensures u in WebUrls(web) <==> u != "" && WebReports(web, u)
  {
    if u != "" && exists q :: q in web.additional && web.additional[q].Ok? && u in web.additional[q].value {
      var q :| q in web.additional && web.additional[q].Ok? && u in web.additional[q].value;
      assert u in ResultUrls(web.additional[q]);
    }
  }

  lemma {:induction false} SocialUrlsMembers(ps: seq<Platform>, u: string)
    ensures u in SocialUrls(ps) ==> u != ""
    ensures (exists i, j :: 0 <= i < |ps| && 0 <= j < |ps[i].posts| && ps[i].posts[j].url == u != "")
            <==> u in SocialUrls(ps)
  {
    if ps != [] {
      var init := ps[..|ps| - 1];
      SocialUrlsMembers(init, u);
      var last := ps[|ps| - 1];
      if u in PostUrls(last.posts) {
        var j :| 0 <= j < |last.posts| && last.posts[j].url != "" && last.posts[j].url == u;
        assert ps[|ps| - 1].posts[j].url == u;
      }
      if exists i, j :: 0 <= i < |ps| && 0 <= j < |ps[i].posts| && ps[i].posts[j].url == u != "" {
        var i, j :| 0 <= i < |ps| && 0 <= j < |ps[i].posts| && ps[i].posts[j].url == u != "";
        if i < |init| {
          assert init[i].posts[j].url == u;
        } else {
          assert u in PostUrls(last.posts);
        }
      }
    }
  }

  /** The loop over one hit list: each non-empty URL is added. */
  method AddUrls(hits: seq<string>, all: set<string>) returns (r: set<string>)
    ensures r == all + UrlsOf(hits)
  {
    r := all;
    for i := 0 to |hits|
      invariant r == all + UrlsOf(hits[..i])
    {
      assert hits[..i + 1] == hits[..i] + [hits[i]];
      if hits[i] != "" {
        r := r + {hits[i]};
      }
    }
    assert hits[..|hits|] == hits;
  }

  method CollectUrlsFromWebSearch(web: WebSearchData, all: set<string>) returns (r: set<string>)
    ensures r == all + WebUrls(web)
  {
    r := all;
    if web.enhanced.Ok? {
      r := AddUrls(web.enhanced.value.exa, r);
      r := AddUrls(web.enhanced.value.google, r);
      r := AddUrls(web.enhanced.value.other, r);
    }
    if web.production.Ok? {
      r := AddUrls(web.production.value, r);
    }
    assert r == all + EnhancedUrls(web.enhanced) + ResultUrls(web.production);
    r := AddAdditionalUrls(web.additional, r);
  }

  /** The loop over `additional_queries_results.values()`. */
  method AddAdditionalUrls(m: map<string, Outcome<seq<string>>>, all: set<string>) returns (r: set<string>)
    ensures r == all + AdditionalUrls(m, m.Keys)
  {
    r := all;
    var pending := m.Keys;
    while pending != {}
      invariant pending <= m.Keys
      invariant r == all + AdditionalUrls(m, m.Keys - pending)
      decreases |pending|
    {
      var q :| q in pending;
      if m[q].Ok? {
        r := AddUrls(m[q].value, r);
      }
      AdditionalUrlsStep(m, m.Keys - pending, q);
      assert m.Keys - (pending - {q}) == (m.Keys - pending) + {q};
      pending := pending - {q};
    }
    assert m.Keys - pending == m.Keys;
  }

  lemma AdditionalUrlsStep(m: map<string, Outcome<seq<string>>>, done: set<string>, q: string)
    requires q in m
    ensures AdditionalUrls(m, done + {q}) == AdditionalUrls(m, done) + ResultUrls(m[q])
  {
  }

  method CollectUrlsFromSocialData(social: SocialData, all: set<string>) returns (r: set<string>)
    ensures r == all + SocialUrls(social.platforms)
  {
    var ps := social.platforms;
    r := all;
    for i := 0 to |ps|
      invariant r == all + SocialUrls(ps[..i])
    {
      assert ps[..i + 1][..i] == ps[..i];
      var posts := ps[i].posts;
      ghost var before := r;
      for j := 0 to |posts|
        invariant r == before + PostUrls(posts[..j])
      {
        assert forall k :: 0 <= k < j ==> posts[..j + 1][k] == posts[..j][k];
        assert PostUrls(posts[..j + 1]) == PostUrls(posts[..j]) + (if posts[j].url != "" then {posts[j].url} else {});
        if posts[j].url != "" {
          r := r + {posts[j].url};
        }
      }
      assert posts[..|posts|] == posts;
    }
    assert ps[..|ps|] == ps;
  }

  method CollectUrlsFromDeepNavigation(deep: DeepData, all: set<string>) returns (r: set<string>)
    ensures r == all + DeepUrls(deep)
  {
    r := all;
    if deep.consolidated.Some? {
      r := AddUrls(deep.consolidated.value.fontes, r);
    }
  }

  // ---------------------------------------------------------------------------
  // phase 4: content extraction

  /** `_extract_single_url_content`: kept only when longer than 500 characters. */
  function SingleUrlContent(url: string, extract: string -> Option<string>): (r: Option<ExtractedItem>)
    ensures r.Some? <==> extract(url).Some? && |extract(url).value| > 500
    ensures r.Some? ==> r.value == ExtractedItem(url, extract(url).value, |extract(url).value|)
  {
    match extract(url)
    case Some(content) => if |content| > 500 then Some(ExtractedItem(url, content, |content|)) else None
    case None => None
  }

  /** The items extracted from the submitted URLs, in submission order. */
  function KeepExtracted(urls: seq<string>, extract: string -> Option<string>): (r: seq<ExtractedItem>)
    ensures |r| <= |urls|
    ensures forall i :: 0 <= i < |r| ==>
      r[i].url in urls && extract(r[i].url) == Some(r[i].content)
      && |r[i].content| > 500 && r[i].length == |r[i].content|
  {
    if urls == [] then []
    else
      var init := urls[..|urls| - 1];
      var last := urls[|urls| - 1];
      assert urls == init + [last];
      KeepExtracted(init, extract)
        + (match SingleUrlContent(last, extract) case Some(item) => [item] case None => [])
  }

  /** Every submitted URL whose page is long enough is kept. */
  lemma {:induction false} KeepExtractedComplete(urls: seq<string>, extract: string -> Option<string>, u: string)
    requires u in urls && extract(u).Some? && |extract(u).value| > 500
    ensures exists i :: 0 <= i < |KeepExtracted(urls, extract)| && KeepExtracted(urls, extract)[i].url == u
  {
    var init := urls[..|urls| - 1];
    var last := urls[|urls| - 1];
    assert urls == init + [last];
    var r := KeepExtracted(init, extract);
    if u == last {
      assert KeepExtracted(urls, extract)[|r|].url == u;
    } else {
      KeepExtractedComplete(init, extract, u);
      var i :| 0 <= i < |r| && r[i].url == u;
      assert KeepExtracted(urls, extract)[i] == r[i];
    }
  }

  /** The first `k` of an enumeration of `s`: distinct members of `s`, as many
      as `s` has up to `k`. */
  lemma TakeOfEnumeration(order: seq<string>, s: set<string>, k: nat)
    requires Enumerates(order, s)
    ensures |Take(order, k)| == (if |s| < k then |s| else k)
    ensures ModuleConfig.Distinct(Take(order, k))
    ensures forall u :: u in Take(order, k) ==> u in s
  {
    ModuleConfig.DistinctCard(order);
    assert (set x | x in order) == s;
  }

  /** `list(all_urls)[:100]`. */
  function Submitted(urls: set<string>, iterate: set<string> -> seq<string>): seq<string> {
    Take(iterate(urls), 100)
  }

  function ExtractedOf(urls: set<string>, iterate: set<string> -> seq<string>, extract: string -> Option<string>)
    : seq<ExtractedItem>
  {
    KeepExtracted(Submitted(urls, iterate), extract)
  }

  /** One hundred URLs at most are submitted, each a pooled URL and each once. */
  lemma SubmittedUrls(urls: set<string>, iterate: set<string> -> seq<string>)
    requires Enumerates(iterate(urls), urls)
    ensures var s := Submitted(urls, iterate);
      && |s| == (if |urls| < 100 then |urls| else 100)
      && ModuleConfig.Distinct(s)
      && (forall u :: u in s ==> u in urls)
  {
    TakeOfEnumeration(iterate(urls), urls, 100);
  }

  /** The extraction loop over the submitted URLs. */
  method ExtractContent(urls: set<string>, iterate: set<string> -> seq<string>, extract: string -> Option<string>)
    returns (items: seq<ExtractedItem>)
    ensures items == ExtractedOf(urls, iterate, extract)
  {
    var submitted := Take(iterate(urls), 100);
    items := [];
    for i := 0 to |submitted|
      invariant items == KeepExtracted(submitted[..i], extract)
    {
      assert submitted[..i + 1][..i] == submitted[..i];
      var item := SingleUrlContent(submitted[i], extract);
      if item.Some? {
        items := items + [item.value];
      }
    }
    assert submitted[..|submitted|] == submitted;
  }

  // ---------------------------------------------------------------------------
  // statistics

  function EnhancedCount(o: Outcome<Enhanced>): nat {
    match o
    case Ok(e) => |e.exa| + |e.google| + |e.other|
    case Failed(_) => 0
  }

  function ResultCount(o: Outcome<seq<string>>): nat {
    match o
    case Ok(hits) => |hits|
    case Failed(_) => 0
  }

  function DeepCount(deep: DeepData): nat {
    match deep.consolidated
    case Some(cons) => |cons.fontes|
    case None => 0
  }

  function ContentLength(items: seq<ExtractedItem>): nat {
    if items == [] then 0 else ContentLength(items[..|items| - 1]) + items[|items| - 1].length
  }

  /** `_calculate_final_statistics`. */
  function FinalStatistics(web: WebSearchData, social: SocialData, deep: DeepData, extracted: seq<ExtractedItem>)
    : Statistics
  {
    var byType := SourcesByType(EnhancedCount(web.enhanced) + ResultCount(web.production),
                                PostTotal(social.platforms), DeepCount(deep), |extracted|);
    Statistics(byType.webSearch + byType.socialMedia + byType.deepNavigation + byType.extractedContent,
               ContentLength(extracted), byType)
  }

  /** Additional-query hits feed the URL pool but are not counted as web sources. */
  lemma StatisticsIgnoreAdditional(web: WebSearchData, social: SocialData, deep: DeepData,
                                   extracted: seq<ExtractedItem>, other: map<string, Outcome<seq<string>>>)
    ensures FinalStatistics(web.(additional := other), social, deep, extracted)
         == FinalStatistics(web, social, deep, extracted)
  {
  }

  lemma {:induction false} ContentLengthBound(items: seq<ExtractedItem>)
    requires forall i :: 0 <= i < |items| ==> items[i].length > 500
    ensures ContentLength(items) >= 501 * |items|
  {
    if items != [] {
      ContentLengthBound(items[..|items| - 1]);
    }
  }

  method CalculateFinalStatistics(data: MassiveData) returns (stats: Statistics)
    ensures stats == FinalStatistics(data.web, data.social, data.deep, data.extracted)
  {
    var webSearch := 0;
    match data.web.enhanced {
      case Ok(e) =>
        webSearch := webSearch + |e.exa|;
        webSearch := webSearch + |e.google|;
        webSearch := webSearch + |e.other|;
      case Failed(_) =>
    }
    match data.web.production {
      case Ok(hits) => webSearch := webSearch + |hits|;
      case Failed(_) =>
    }
    var ps := data.social.platforms;
    var socialMedia := 0;
    for i := 0 to |ps|
      invariant socialMedia == PostTotal(ps[..i])
    {
      assert ps[..i + 1][..i] == ps[..i];
      socialMedia := socialMedia + |ps[i].posts|;
    }
    assert ps[..|ps|] == ps;
    var deepNavigation := DeepCount(data.deep);
    var byType := SourcesByType(webSearch, socialMedia, deepNavigation, |data.extracted|);
    var items := data.extracted;
    var totalChars := 0;
    for i := 0 to |items|
      invariant totalChars == ContentLength(items[..i])
    {
      assert items[..i + 1][..i] == items[..i];
      totalChars := totalChars + items[i].length;
    }
    assert items[..|items|] == items;
    stats := Statistics(webSearch + socialMedia + deepNavigation + |data.extracted|, totalChars, byType);
  }

  /** The `summary` of the compact record. */
  function CompactSummary(data: MassiveData): Summary {
    var byType := data.statistics.sourcesByType;
    Summary(byType.webSearch, byType.socialMedia, byType.deepNavigation, |data.extracted|,
            data.statistics.totalContentLength)
  }

  // ---------------------------------------------------------------------------
  // the whole run

  /** `execute_massive_collection`, without timing and persistence. */
  function MassiveCollection(sessionId: string, query: string, context: Context, c: Collaborators): MassiveData {
    var web := WebPhase(query, context, c);
    var social := SocialPhase(c);
    var deep := DeepPhase(c.navigation);
    var extracted := ExtractedOf(AllUrls(web, social, deep), c.iterate, c.extract);
    MassiveData(Metadata(sessionId, query, context, Version), web, social, deep, extracted,
                FinalStatistics(web, social, deep, extracted))
  }

  /** A failing collaborator leaves its error marker in its own phase and
      changes no other phase. */
  lemma FailureStaysInItsPhase(sessionId: string, query: string, context: Context, c: Collaborators, e: string)
    ensures var a := MassiveCollection(sessionId, query, context, c);
      var b := MassiveCollection(sessionId, query, context, c.(enhanced := Failed(e)));
      b.web.enhanced == Failed(e) && b.web.production == a.web.production
      && b.web.additional == a.web.additional && b.social == a.social && b.deep == a.deep
    ensures var a := MassiveCollection(sessionId, query, context, c);
      var b := MassiveCollection(sessionId, query, context, c.(platforms := Failed(e)));
      b.social.error == Some(e) && b.web == a.web && b.deep == a.deep
    ensures var a := MassiveCollection(sessionId, query, context, c);
      var b := MassiveCollection(sessionId, query, context, c.(navigation := Failed(e)));
      b.deep.error == Some(e) && b.web == a.web && b.social == a.social
  {
  }

  /** The statistics of a run: at most 100 extracted items of more than 500
      characters each, the social count agreeing with the engagement summary,
      and a compact summary whose counts add up to the total. */
  lemma CollectionTotals(sessionId: string, query: string, context: Context, c: Collaborators)
    ensures var d := MassiveCollection(sessionId, query, context, c);
      var s := d.statistics;
      var sum := CompactSummary(d);
      && s.sourcesByType.extractedContent == |d.extracted| <= 100
      && s.totalContentLength >= 501 * |d.extracted|
      && (d.social.engagement.Some? ==> d.social.engagement.value.totalPosts == s.sourcesByType.socialMedia)
      && sum.totalWebSources + sum.totalSocialSources + sum.totalDeepSources + sum.totalExtractedContent
         == s.totalSources
      && sum.totalContentLength == s.totalContentLength
  {
    var d := MassiveCollection(sessionId, query, context, c);
    ContentLengthBound(d.extracted);
    if d.social.engagement.Some? {
      EngagementCounts(d.social.platforms);
    }
  }

  method ExecuteMassiveCollection(sessionId: string, query: string, context: Context, c: Collaborators)
    returns (data: MassiveData)
    ensures data == MassiveCollection(sessionId, query, context, c)
  {
    var queries := AdditionalQueries(context);
    var additional := SearchAdditionalQueries(queries, c.search);
    var web := WebSearchData(c.enhanced, c.search(query, 50), additional);
    var social := ExecuteSocialCollection(c);
    var deep := DeepPhase(c.navigation);
    var urls: set<string> := {};
    urls := CollectUrlsFromWebSearch(web, urls);
    urls := CollectUrlsFromSocialData(social, urls);
    urls := CollectUrlsFromDeepNavigation(deep, urls);
    assert web == WebPhase(query, context, c);
    assert urls == AllUrls(web, social, deep);
    var extracted := ExtractContent(urls, c.iterate, c.extract);
    data := MassiveData(Metadata(sessionId, query, context, Version), web, social, deep, extracted,
                        Statistics(0, 0, SourcesByType(0, 0, 0, 0)));
    var stats := CalculateFinalStatistics(data);
    data := data.(statistics := stats);
  }
}
