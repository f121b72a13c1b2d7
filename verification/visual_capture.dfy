/** `VisualContentCapture`: ranks the social posts of a session by engagement
    and captures a screenshot of each of the top ones. The browser is an oracle:
    for a URL, a platform and a 1-based index it either saves the screenshot or
    reports why it could not. */
module VisualCapture {
  import opened Wrappers
  import opened Text
  import opened StableSort

  // ---------------------------------------------------------------------------
  // Posts and their engagement

  /** The fields of a post the ranker reads; `None` where the key is absent.
      `viewCount` is the text `str()` gives for `view_count`. */
  datatype Post = Post(
    url: Option<string>, title: Option<string>, text: Option<string>, caption: Option<string>,
    viewCount: Option<string>, likeCount: Option<int>, commentCount: Option<int>,
    retweetCount: Option<int>, replyCount: Option<int>,
    likes: Option<int>, comments: Option<int>, shares: Option<int>)

  /** The platforms the ranker scans, in the order it scans them. */
  const Platforms: seq<string> := ["youtube", "twitter", "instagram", "linkedin"]

  /** `int(str(view_count).replace(',', ''))`, `None` where Python raises; an
      absent count reads as 0. */
  function YouTubeViews(p: Post): Option<int> {
    if p.viewCount.None? then Some(0) else ParseInt(RemoveChar(p.viewCount.value, ','))
  }

  /** `_calculate_engagement_score`: 0 for an unknown platform and where the
      view count does not parse. */
  function EngagementScore(p: Post, platform: string): (r: real)
    ensures platform !in Platforms ==> r == 0.0
    ensures platform == "youtube" && YouTubeViews(p).Some? && YouTubeViews(p).value <= 1
        ==> r == (2 * p.likeCount.GetOr(0) + 3 * p.commentCount.GetOr(0)) as real * 1000.0
  {
    if platform == "youtube" then
      match YouTubeViews(p)
      case None => 0.0
      case Some(views) =>
        ViewRatio(2 * p.likeCount.GetOr(0) + 3 * p.commentCount.GetOr(0), views)
    else if platform == "twitter" then
      (p.likeCount.GetOr(0) + 3 * p.retweetCount.GetOr(0) + 2 * p.replyCount.GetOr(0)) as real
    else if platform == "instagram" then
      (p.likeCount.GetOr(0) + 5 * p.commentCount.GetOr(0)) as real
    else if platform == "linkedin" then
      (p.likes.GetOr(0) + 3 * p.comments.GetOr(0) + 5 * p.shares.GetOr(0)) as real
    else 0.0
  }

  /** Weighted interactions per view, scaled by 1000; fewer than one view
      counts as one. */
  function ViewRatio(weighted: int, views: int): real {
    weighted as real / (if views > 1 then views else 1) as real * 1000.0
  }

  /** A YouTube post that gains a like or a comment never loses score. */
  lemma YouTubeMonotone(p: Post, q: Post)
    requires YouTubeViews(p) == YouTubeViews(q) && YouTubeViews(p).Some?
    requires p.likeCount.GetOr(0) <= q.likeCount.GetOr(0) && p.commentCount.GetOr(0) <= q.commentCount.GetOr(0)
    ensures EngagementScore(p, "youtube") <= EngagementScore(q, "youtube")
  {
    var v := YouTubeViews(p).value;
    var a := 2 * p.likeCount.GetOr(0) + 3 * p.commentCount.GetOr(0);
    var b := 2 * q.likeCount.GetOr(0) + 3 * q.commentCount.GetOr(0);
    calc {
      EngagementScore(p, "youtube");
    == { YouTubeScore(p, v); }
      ViewRatio(a, v);
    <= { ViewRatioMonotone(a, b, v); }
      ViewRatio(b, v);
    == { YouTubeScore(q, v); }
      EngagementScore(q, "youtube");
    }
  }

  lemma ViewRatioMonotone(a: int, b: int, views: int)
    requires a <= b
    ensures ViewRatio(a, views) <= ViewRatio(b, views)
  {
    ScaledRatioMonotone(a as real, b as real, (if views > 1 then views else 1) as real);
  }

  lemma YouTubeScore(p: Post, v: int)
    requires YouTubeViews(p) == Some(v)
    ensures EngagementScore(p, "youtube") == ViewRatio(2 * p.likeCount.GetOr(0) + 3 * p.commentCount.GetOr(0), v)
  {
  }

  /** On Twitter, Instagram and LinkedIn the score is a weighted sum of counts:
      no count that grows lowers it, and a post with no counts scores 0. */
  lemma CountScoresMonotone(p: Post, q: Post, platform: string)
    requires platform == "twitter" || platform == "instagram" || platform == "linkedin"
    requires p.likeCount.GetOr(0) <= q.likeCount.GetOr(0) && p.commentCount.GetOr(0) <= q.commentCount.GetOr(0)
    requires p.retweetCount.GetOr(0) <= q.retweetCount.GetOr(0) && p.replyCount.GetOr(0) <= q.replyCount.GetOr(0)
    requires p.likes.GetOr(0) <= q.likes.GetOr(0) && p.comments.GetOr(0) <= q.comments.GetOr(0)
    requires p.shares.GetOr(0) <= q.shares.GetOr(0)
    ensures EngagementScore(p, platform) <= EngagementScore(q, platform)
    ensures (p.likeCount.None? && p.commentCount.None? && p.retweetCount.None? && p.replyCount.None?
             && p.likes.None? && p.comments.None? && p.shares.None?)
            ==> EngagementScore(p, platform) == 0.0
  {
  }

  lemma ScaledRatioMonotone(a: real, b: real, d: real)
    requires a <= b && d > 0.0
    ensures a / d * 1000.0 <= b / d * 1000.0
  {
    assert (b - a) / d >= 0.0;
    assert b / d - a / d == (b - a) / d;
  }

  // ---------------------------------------------------------------------------
  // Ranking

  datatype Views = ViewText(text: string) | ViewNumber(n: int)

  /** A scored post, as `_identify_viral_posts` records it. */
  datatype Candidate = Candidate(
    url: string, platform: string, score: real, title: string, views: Views, likes: int, shares: int)

  function Score(c: Candidate): real {
    c.score
  }

  /** The record of a post: `views` falls back to `like_count`, `shares` to
      `shares` when `retweet_count` is absent, `title` to `text`, then `caption`. */
  function ToCandidate(p: Post, platform: string): (c: Candidate)
    ensures c.platform == platform && c.score == EngagementScore(p, platform)
    ensures p.viewCount.None? ==> c.views == ViewNumber(p.likeCount.GetOr(0))
    ensures p.retweetCount.None? ==> c.shares == p.shares.GetOr(0)
    ensures p.title.None? && p.text.None? ==> c.title == p.caption.GetOr("")
  {
    Candidate(
      p.url.GetOr(""), platform, EngagementScore(p, platform),
      if p.title.Some? then p.title.value else if p.text.Some? then p.text.value else p.caption.GetOr(""),
      if p.viewCount.Some? then ViewText(p.viewCount.value) else ViewNumber(p.likeCount.GetOr(0)),
      p.likeCount.GetOr(0),
      if p.retweetCount.Some? then p.retweetCount.value else p.shares.GetOr(0))
  }

  /** `scored_posts` of a platform: the posts with a positive score, in order. */
  function Scored(posts: seq<Post>, platform: string): (r: seq<Candidate>)
    ensures |r| <= |posts|
    ensures forall c :: c in r ==> c.platform == platform && c.score > 0.0
    ensures forall p :: p in posts && EngagementScore(p, platform) > 0.0 ==> ToCandidate(p, platform) in r
  {
    if posts == [] then []
    else
      var last := posts[|posts| - 1];
      assert posts == posts[..|posts| - 1] + [last];
      Scored(posts[..|posts| - 1], platform) + Contribution(last, platform)
  }

  /** What one post adds to `scored_posts`: its candidate when its score is positive. */
  function Contribution(p: Post, platform: string): seq<Candidate> {
    if EngagementScore(p, platform) > 0.0 then [ToCandidate(p, platform)] else []
  }

  /** Scoring works post by post: the candidates of `a + b` are those of `a`
      followed by those of `b`, so each post contributes once and in its place. */
  lemma {:induction false} ScoredConcat(a: seq<Post>, b: seq<Post>, platform: string)
    ensures Scored(a + b, platform) == Scored(a, platform) + Scored(b, platform)
    decreases |b|
  {
    if b == [] {
      assert a + b == a;
    } else {
      var init, last := b[..|b| - 1], b[|b| - 1];
      assert (a + b)[..|a + b| - 1] == a + init;
      assert (a + b)[|a + b| - 1] == last;
      ScoredConcat(a, init, platform);
      var x, y, z := Scored(a, platform), Scored(init, platform), Contribution(last, platform);
      assert Scored(a + b, platform) == x + y + z;
      assert Scored(b, platform) == y + z;
    }
  }

  /** A single post gives its candidate when its score is positive, nothing otherwise. */
  lemma ScoredSingle(p: Post, platform: string)
    ensures Scored([p], platform)
         == if EngagementScore(p, platform) > 0.0 then [ToCandidate(p, platform)] else []
  {
    assert [p][..0] == [];
  }

  /** `social_media_data[platform]['results']`, empty when either key is absent. */
  function PostsOf(data: map<string, seq<Post>>, platform: string): seq<Post> {
    if platform in data then data[platform] else []
  }

  /** The three best posts of a platform. */
  function TopOf(data: map<string, seq<Post>>, platform: string): (r: seq<Candidate>)
    ensures |r| <= 3
    ensures SortedDesc(r, Score)
    ensures forall c :: c in r ==> c.platform == platform && c.score > 0.0
  {
    var sorted := SortDesc(Scored(PostsOf(data, platform), platform), Score);
    TakeSorted(sorted, Score, 3);
    var r := Take(sorted, 3);
    assert forall c :: c in r ==> c in multiset(sorted);
    r
  }

  /** The three kept are the best three: as many as there are, up to three, and
      every scored post left out scores no higher than any kept one. */
  lemma TopOfSelects(data: map<string, seq<Post>>, platform: string)
    ensures var all, r := Scored(PostsOf(data, platform), platform), TopOf(data, platform);
      |r| == (if |all| < 3 then |all| else 3) && BestOf(r, all, Score)
  {
    TakeSortedBest(Scored(PostsOf(data, platform), platform), Score, 3);
  }

  /** The pooled `viral_posts` after scanning `platforms`. */
  function Pooled(data: map<string, seq<Post>>, platforms: seq<string>): (r: seq<Candidate>)
    ensures forall c :: c in r ==> c.platform in platforms && c.score > 0.0
  {
    if platforms == [] then []
    else
      var init := platforms[..|platforms| - 1];
      Pooled(data, init) + TopOf(data, platforms[|platforms| - 1])
  }

  /** `_identify_viral_posts`: the ten best of the pooled posts. */
  function ViralPosts(data: map<string, seq<Post>>): seq<Candidate> {
    Take(SortDesc(Pooled(data, Platforms), Score), 10)
  }

  /** At most ten posts, best first, each a scored post of a scanned platform,
      drawn from the pooled list. */
  lemma ViralPostsRanked(data: map<string, seq<Post>>)
    ensures |ViralPosts(data)| <= 10
    ensures SortedDesc(ViralPosts(data), Score)
    ensures multiset(ViralPosts(data)) <= multiset(Pooled(data, Platforms))
    ensures forall c :: c in ViralPosts(data) ==> c.platform in Platforms && c.score > 0.0
  {
    var sorted := SortDesc(Pooled(data, Platforms), Score);
    TakeSorted(sorted, Score, 10);
    var r := ViralPosts(data);
    forall c | c in r ensures c.platform in Platforms && c.score > 0.0 {
      assert c in multiset(r);
      assert c in multiset(Pooled(data, Platforms));
    }
  }

  /** The ten kept are the best ten of the pool: as many as there are, up to ten,
      and every pooled post left out scores no higher than any kept one. */
  lemma ViralPostsSelect(data: map<string, seq<Post>>)
    ensures var all, r := Pooled(data, Platforms), ViralPosts(data);
      |r| == (if |all| < 10 then |all| else 10) && BestOf(r, all, Score)
  {
    TakeSortedBest(Pooled(data, Platforms), Score, 10);
  }

  /** Posts of equal score keep their pooled order: those of the result are the
      first ones of the pooled list. */
  lemma ViralPostsStable(data: map<string, seq<Post>>, v: real)
    ensures var kept, pooled := WithKey(ViralPosts(data), Score, v), WithKey(Pooled(data, Platforms), Score, v);
      |kept| <= |pooled| && kept == pooled[..|kept|]
  {
    var sorted := SortDesc(Pooled(data, Platforms), Score);
    SortDescStable(Pooled(data, Platforms), Score, v);
    WithKeyTake(sorted, Score, v, 10);
  }

  /** The posts of platform `p` in `s`. */
  function OfPlatform(s: seq<Candidate>, p: string): (r: seq<Candidate>)
    ensures |r| <= |s|
  {
    if s == [] then [] else (if s[0].platform == p then [s[0]] else []) + OfPlatform(s[1..], p)
  }

  /** No platform contributes more than three posts. */
  lemma AtMostThreePerPlatform(data: map<string, seq<Post>>, p: string)
    ensures |OfPlatform(ViralPosts(data), p)| <= 3
  {
    var pooled := Pooled(data, Platforms);
    ViralPostsRanked(data);
    OfPlatformSubmultiset(ViralPosts(data), pooled, p);
    PlatformsDistinct();
    PooledPerPlatform(data, Platforms, p);
  }

  lemma PlatformsDistinct()
    ensures forall i, j :: 0 <= i < j < |Platforms| ==> Platforms[i] != Platforms[j]
  {
  }

  lemma {:induction false} PooledPerPlatform(data: map<string, seq<Post>>, platforms: seq<string>, p: string)
    requires forall i, j :: 0 <= i < j < |platforms| ==> platforms[i] != platforms[j]
    ensures |OfPlatform(Pooled(data, platforms), p)| <= 3
    ensures p !in platforms ==> OfPlatform(Pooled(data, platforms), p) == []
  {
    if platforms != [] {
      var init := platforms[..|platforms| - 1];
      var q := platforms[|platforms| - 1];
      PooledPerPlatform(data, init, p);
      OfPlatformAppend(Pooled(data, init), TopOf(data, q), p);
      if q == p {
        OfPlatformLength(TopOf(data, q), p);
        assert p !in init;
      } else {
        OfPlatformNone(TopOf(data, q), p);
      }
    }
  }

  lemma {:induction false} OfPlatformAppend(a: seq<Candidate>, b: seq<Candidate>, p: string)
    ensures OfPlatform(a + b, p) == OfPlatform(a, p) + OfPlatform(b, p)
  {
    if a != [] {
      assert (a + b)[0] == a[0];
      assert (a + b)[1..] == a[1..] + b;
      OfPlatformAppend(a[1..], b, p);
    } else {
      assert a + b == b;
    }
  }

  lemma OfPlatformLength(s: seq<Candidate>, p: string)
    ensures |OfPlatform(s, p)| <= |s|
  {
  }

  lemma {:induction false} OfPlatformNone(s: seq<Candidate>, p: string)
    requires forall c :: c in s ==> c.platform != p
    ensures OfPlatform(s, p) == []
  {
    if s != [] {
      assert s[0] in s;
      assert forall c :: c in s[1..] ==> c in s;
      OfPlatformNone(s[1..], p);
    }
  }

  lemma {:induction false} OfPlatformMultiset(s: seq<Candidate>, p: string, c: Candidate)
    ensures multiset(OfPlatform(s, p))[c] == if c.platform == p then multiset(s)[c] else 0
  {
    if s != [] {
      OfPlatformMultiset(s[1..], p, c);
      assert s == [s[0]] + s[1..];
    }
  }

  /** Taking a sub-multiset never adds posts of a platform. */
  lemma OfPlatformSubmultiset(a: seq<Candidate>, b: seq<Candidate>, p: string)
    requires multiset(a) <= multiset(b)
    ensures |OfPlatform(a, p)| <= |OfPlatform(b, p)|
  {
    var ma, mb := multiset(OfPlatform(a, p)), multiset(OfPlatform(b, p));
    forall c ensures ma[c] <= mb[c] {
      OfPlatformMultiset(a, p, c);
      OfPlatformMultiset(b, p, c);
    }
    assert ma <= mb;
    assert mb == ma + (mb - ma);
  }

  // ---------------------------------------------------------------------------
  // The ranker's loops

  /** The scoring loop of one platform. */
  method ScorePosts(posts: seq<Post>, platform: string) returns (scored: seq<Candidate>)
    ensures scored == Scored(posts, platform)
  {
    scored := [];
    for i := 0 to |posts|
      invariant scored == Scored(posts[..i], platform)
    {
      assert posts[..i + 1][..i] == posts[..i];
      var score := EngagementScore(posts[i], platform);
      if score > 0.0 {
        scored := scored + [ToCandidate(posts[i], platform)];
      }
    }
    assert posts[..|posts|] == posts;
  }

  /** `_identify_viral_posts(social_media_data)`; the sorts are Python's stable
      `list.sort(reverse=True)`, modelled by `SortDesc`. */
  method IdentifyViralPosts(data: map<string, seq<Post>>) returns (viral: seq<Candidate>)
    ensures viral == ViralPosts(data)
  {
    viral := [];
    for k := 0 to |Platforms|
      invariant viral == Pooled(data, Platforms[..k])
    {
      PooledStep(data, k);
      var platform := Platforms[k];
      var posts := PostsOf(data, platform);
      if posts != [] {
        var scored := ScorePosts(posts, platform);
        scored := SortDesc(scored, Score);
        viral := viral + Take(scored, 3);
      } else {
        assert TopOf(data, platform) == [];
      }
    }
    assert Platforms[..|Platforms|] == Platforms;
    viral := SortDesc(viral, Score);
    viral := Take(viral, 10);
  }

  lemma PooledStep(data: map<string, seq<Post>>, k: nat)
    requires k < |Platforms|
    ensures Pooled(data, Platforms[..k + 1]) == Pooled(data, Platforms[..k]) + TopOf(data, Platforms[k])
  {
    assert Platforms[..k + 1][..k] == Platforms[..k];
  }

  // ---------------------------------------------------------------------------
  // Capturing

  /** `f"{platform}_post_{index:03d}.png"`. */
  function ScreenshotName(platform: string, index: nat): string {
    platform + "_post_" + ZeroPad(index, 3) + ".png"
  }

  /** For the ten posts of a session the index is three digits that read back
      as the index. */
  lemma ScreenshotNameFormat(platform: string, index: nat)
    requires 1 <= index < 1000
    ensures var name, k := ScreenshotName(platform, index), |platform| + 6;
      && |name| == k + 7
      && StartsWith(name, platform + "_post_")
      && EndsWith(name, ".png")
      && AllDigits(name[k..k + 3]) && DigitsValue(name[k..k + 3]) == index
  {
    NatToStringLength(index, 3);
    ZeroPadRoundTrip(index, 3);
    var name := ScreenshotName(platform, index);
    var k := |platform| + 6;
    assert name[k..k + 3] == ZeroPad(index, 3);
  }

  /** A URL the capture loop accepts. */
  predicate ValidUrl(url: string) {
    url != [] && (StartsWith(url, "http://") || StartsWith(url, "https://"))
  }

  /** What a capture of a post produced. */
  datatype CapturedPost = CapturedPost(
    url: string, platform: string, filename: string, engagementScore: real, views: Views, likes: int, shares: int)

  /** `capture_results`; the timestamps and the session directory are left out. */
  datatype CaptureReport = CaptureReport(
    sessionId: string, totalPostsAnalyzed: nat, screenshotsCaptured: nat, failedCaptures: nat,
    viralPosts: seq<CapturedPost>, errors: seq<string>, criticalError: Option<string>)

  /** The browser: the cause of the failure of a capture, `None` when the
      screenshot was saved. */
  type Browser = (string, string, nat) -> Option<string>

  /** One turn of the capture loop for the `index`-th post. */
  function CaptureStep(r: CaptureReport, post: Candidate, index: nat, browser: Browser): CaptureReport {
    if !ValidUrl(post.url) then
      r.(failedCaptures := r.failedCaptures + 1, errors := r.errors + ["URL inválida: " + post.url])
    else
      match browser(post.url, post.platform, index)
      case None =>
        var shot := CapturedPost(post.url, post.platform, ScreenshotName(post.platform, index), post.score,
                                 post.views, post.likes, post.shares);
        r.(screenshotsCaptured := r.screenshotsCaptured + 1, viralPosts := r.viralPosts + [shot])
      case Some(cause) =>
        var error := "Erro ao capturar " + post.platform + " post de " + post.url + ": " + cause;
        r.(failedCaptures := r.failedCaptures + 1, errors := r.errors + [error])
  }

  /** The capture loop over the first posts of `posts`, numbered from 1. */
  function CaptureLoop(r: CaptureReport, posts: seq<Candidate>, browser: Browser): CaptureReport
  {
    if posts == [] then r
    else
      var k := |posts| - 1;
      CaptureStep(CaptureLoop(r, posts[..k], browser), posts[k], k + 1, browser)
  }

  /** Extending the prefix by one post adds one turn of the loop. */
  lemma CaptureLoopNext(r: CaptureReport, posts: seq<Candidate>, i: nat, browser: Browser)
    requires i < |posts|
    ensures CaptureLoop(r, posts[..i + 1], browser) == CaptureStep(CaptureLoop(r, posts[..i], browser), posts[i], i + 1, browser)
  {
    assert posts[..i + 1][..i] == posts[..i];
  }

  function FreshReport(sessionId: string): CaptureReport {
    CaptureReport(sessionId, 0, 0, 0, [], [], None)
  }

  /** `capture_viral_posts_screenshots`; `setupError` is the exception raised
      while creating the directory or starting the browser, if any. */
  function CaptureSession(sessionId: string, data: map<string, seq<Post>>, setupError: Option<string>,
                          browser: Browser): CaptureReport
  {
    if setupError.Some? then
      FreshReport(sessionId).(criticalError := Some("Erro crítico na captura de posts virais: " + setupError.value))
    else
      var viral := ViralPosts(data);
      CaptureLoop(FreshReport(sessionId).(totalPostsAnalyzed := |viral|), viral, browser)
  }

  /** Each post either yields a screenshot or a recorded failure. */
  lemma {:induction false} CaptureLoopCounts(r: CaptureReport, posts: seq<Candidate>, browser: Browser)
    ensures var out := CaptureLoop(r, posts, browser);
      && out.screenshotsCaptured + out.failedCaptures == r.screenshotsCaptured + r.failedCaptures + |posts|
      && |out.viralPosts| - |r.viralPosts| == out.screenshotsCaptured - r.screenshotsCaptured
      && |out.errors| - |r.errors| == out.failedCaptures - r.failedCaptures
      && out.totalPostsAnalyzed == r.totalPostsAnalyzed && out.criticalError == r.criticalError
    decreases |posts|
  {
    if posts != [] {
      CaptureLoopCounts(r, posts[..|posts| - 1], browser);
    }
  }

  /** Without a critical error every analysed post is counted exactly once,
      and at most ten posts are analysed. */
  lemma CaptureAccounts(sessionId: string, data: map<string, seq<Post>>, browser: Browser)
    ensures var out := CaptureSession(sessionId, data, None, browser);
      && out.screenshotsCaptured + out.failedCaptures == out.totalPostsAnalyzed <= 10
      && |out.viralPosts| == out.screenshotsCaptured
      && |out.errors| == out.failedCaptures
  {
    ViralPostsRanked(data);
    var viral := ViralPosts(data);
    CaptureLoopCounts(FreshReport(sessionId).(totalPostsAnalyzed := |viral|), viral, browser);
  }

  /** A post with an invalid URL never reaches the browser: it is a failure
      whatever the browser would have done. */
  lemma InvalidUrlSkipped(r: CaptureReport, post: Candidate, index: nat, browser: Browser, other: Browser)
    requires !ValidUrl(post.url)
    ensures CaptureStep(r, post, index, browser) == CaptureStep(r, post, index, other)
    ensures CaptureStep(r, post, index, browser).failedCaptures == r.failedCaptures + 1
    ensures CaptureStep(r, post, index, browser).errors == r.errors + ["URL inválida: " + post.url]
  {
  }

  /** The `index`-th saved screenshot is named after its platform and index. */
  lemma CapturedName(r: CaptureReport, post: Candidate, index: nat, browser: Browser)
    requires ValidUrl(post.url) && browser(post.url, post.platform, index).None?
    ensures var out := CaptureStep(r, post, index, browser);
      out.viralPosts == r.viralPosts + [out.viralPosts[|out.viralPosts| - 1]]
      && out.viralPosts[|out.viralPosts| - 1].filename == ScreenshotName(post.platform, index)
  {
  }

  /** `capture_viral_posts_screenshots(social_media_data, session_id)`. */
  method CaptureViralPostsScreenshots(sessionId: string, data: map<string, seq<Post>>, setupError: Option<string>,
                                     browser: Browser)
    returns (report: CaptureReport)
    ensures report == CaptureSession(sessionId, data, setupError, browser)
  {
    report := FreshReport(sessionId);
    if setupError.Some? {
      report := report.(criticalError := Some("Erro crítico na captura de posts virais: " + setupError.value));
      return;
    }
    var viral := IdentifyViralPosts(data);
    report := report.(totalPostsAnalyzed := |viral|);
    ghost var start := report;
    for i := 0 to |viral|
      invariant report == CaptureLoop(start, viral[..i], browser)
    {
      CaptureLoopNext(start, viral, i, browser);
      var post := viral[i];
      var index := i + 1;
      if !ValidUrl(post.url) {
        report := report.(failedCaptures := report.failedCaptures + 1, errors := report.errors + ["URL inválida: " + post.url]);
      } else {
        var failure := browser(post.url, post.platform, index);
        if failure.None? {
          var shot := CapturedPost(post.url, post.platform, ScreenshotName(post.platform, index), post.score,
                                   post.views, post.likes, post.shares);
          report := report.(screenshotsCaptured := report.screenshotsCaptured + 1, viralPosts := report.viralPosts + [shot]);
        } else {
          var error := "Erro ao capturar " + post.platform + " post de " + post.url + ": " + failure.value;
          report := report.(failedCaptures := report.failedCaptures + 1, errors := report.errors + [error]);
        }
      }
    }
    assert viral[..|viral|] == viral;
  }
}
