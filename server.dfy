/**
 * The HTTP endpoints of the backend as functions from their parameters to the reply:
 * trend listing and search, lookup, generation, the catalogues, the history stub and
 * the platform statistics. An endpoint answers with a JSON envelope or an HTTP error.
 */
module Server {
  import opened Wrappers
  import opened Text
  import opened Models
  import opened TrendService
  import AiService
  import Catalog

  /** The `data` of each endpoint's envelope. */
  datatype Payload =
    | TrendsData(page: TrendsPage)
    | TrendData(trend: Trend)
    | ContentData(id: string, content: GeneratedContent)
    | TemplatesData(templates: seq<ContentTemplate>)
    | TonesData(tones: seq<ToneOption>)
    | HistoryData(history: seq<GeneratedContent>, total: int)
    | StatsData(stats: Stats)

  datatype Reply = Json(body: ApiResponse<Payload>) | HttpError(status: int, detail: string)

  function Success(data: Payload, message: string): (r: Reply)
    ensures r.Json? && r.body.success && r.body.data == Some(data) && r.body.error.None?
  {
    Json(ApiResponse(true, Some(data), message, None))
  }

  /** The user every request runs as. */
  const AnonymousUser := "anonymous_user"

  // ---------------------------------------------------------------- trends

  /** Python truthiness of an optional string. */
  predicate Truthy(s: Option<string>) {
    s.Some? && s.value != ""
  }

  /** The trends `get_trends` returns: a search when `search` is truthy (which never
      raises), else the listing (which may). */
  function SelectTrends(category: Option<string>, platform: Option<string>, search: Option<string>,
                        limit: int, env: Environment): Result<seq<Trend>>
  {
    if Truthy(search) then Ok(SearchResult(search.value, category, platform, limit, env))
    else TrendingTopics(category, platform, limit, env)
  }

  /** `GET /trends`. `skip` is computed in the source but never used. */
  function GetTrends(category: Option<string>, platform: Option<string>, search: Option<string>,
                     limit: int, page: int, env: Environment): (r: Reply)
    ensures SelectTrends(category, platform, search, limit, env).Err? <==> r.HttpError?
    ensures r.HttpError? ==> r.status == 500 && r.detail == "Error retrieving trends: "
                                                 + SelectTrends(category, platform, search, limit, env).message
    ensures r.Json? ==> r.body.success && r.body.data.Some? && r.body.data.value.TrendsData?
    ensures r.Json? ==> var p := r.body.data.value.page;
                        && p.trends == SelectTrends(category, platform, search, limit, env).value
                        && p.total == |p.trends| && p.page == page && p.limit == limit
  {
    match SelectTrends(category, platform, search, limit, env)
    case Err(m) => HttpError(500, "Error retrieving trends: " + m)
    case Ok(ts) => Success(TrendsData(TrendsPage(ts, |ts|, page, limit)), "Trends retrieved successfully")
  }

  /** The page number is echoed and changes nothing else. */
  lemma PageNeverFilters(category: Option<string>, platform: Option<string>, search: Option<string>,
                         limit: int, page1: int, page2: int, env: Environment)
    ensures GetTrends(category, platform, search, limit, page1, env).Json?
            == GetTrends(category, platform, search, limit, page2, env).Json?
    ensures GetTrends(category, platform, search, limit, page1, env).Json? ==>
              GetTrends(category, platform, search, limit, page1, env).body.data.value.page.trends
              == GetTrends(category, platform, search, limit, page2, env).body.data.value.page.trends
  {
  }

  /** A search is used exactly when `search` is truthy, with the same category,
      platform and limit as the listing it replaces; a search never answers 500. */
  lemma TrendsDispatch(category: Option<string>, platform: Option<string>, search: Option<string>,
                       limit: int, page: int, env: Environment)
    ensures Truthy(search) ==> GetTrends(category, platform, search, limit, page, env).Json?
    ensures Truthy(search) ==> GetTrends(category, platform, search, limit, page, env).body.data.value.page.trends
                               == SearchResult(search.value, category, platform, limit, env)
    ensures !Truthy(search) ==> (GetTrends(category, platform, search, limit, page, env).Json?
                                 <==> TrendingTopics(category, platform, limit, env).Ok?)
    ensures !Truthy(search) && TrendingTopics(category, platform, limit, env).Ok? ==>
              GetTrends(category, platform, search, limit, page, env).body.data.value.page.trends
              == TrendingTopics(category, platform, limit, env).value
  {
  }

  /** `GET /trends/{id}`: the lookup never raises, so a missing trend is a 404. */
  function GetTrend(id: string, env: Environment): (r: Reply)
    ensures TrendById(id, env).None? <==> r == HttpError(404, "Trend not found")
    ensures r.Json? ==> r.body.data == Some(TrendData(TrendById(id, env).value))
  {
    match TrendById(id, env)
    case None => HttpError(404, "Trend not found")
    case Some(t) => Success(TrendData(t), "Trend retrieved successfully")
  }

  // ---------------------------------------------------------------- generation

  /** `POST /generate-content`: the trend is looked up first and a missing one is a 404;
      then the script is generated for the anonymous user. `answer` is the outcome of
      the model call, `st` the id and time of the new script. */
  function GenerateContent(request: ContentGenerationRequest, env: Environment, answer: Result<string>,
                           st: AiService.Stamp, parse: string -> Option<AiService.ParsedReply>): (r: Reply)
    ensures TrendById(request.trendId, env).None? ==> r == HttpError(404, "Trend not found")
    ensures TrendById(request.trendId, env).Some? && answer.Err? ==>
              r == HttpError(500, "Error generating content: " + ("Failed to generate content: " + answer.message))
    ensures TrendById(request.trendId, env).Some? && answer.Ok? ==> r.Json?
  {
    match TrendById(request.trendId, env)
    case None => HttpError(404, "Trend not found")
    case Some(trend) =>
      match AiService.GenerateContentScript(trend, request, AnonymousUser, answer, st, parse)
      case Err(m) => HttpError(500, "Error generating content: " + m)
      case Ok(c) => Success(ContentData(c.id, c), "Content generated successfully")
  }

  /** A generated script is answered under its own id, for the trend the request names,
      as the anonymous user, in the session the AI service chose. */
  lemma GeneratedForRequestedTrend(request: ContentGenerationRequest, env: Environment, answer: Result<string>,
                                   st: AiService.Stamp, parse: string -> Option<AiService.ParsedReply>)
    requires TrendById(request.trendId, env).Some? && answer.Ok?
    ensures var r := GenerateContent(request, env, answer, st, parse);
            var trend := TrendById(request.trendId, env).value;
            && r.body.data.Some? && r.body.data.value.ContentData?
            && r.body.data.value.id == st.id
            && AiService.CopiesInputs(r.body.data.value.content, trend, request, AnonymousUser,
                                      AiService.SessionId(request, trend), st)
  {
    var trend := TrendById(request.trendId, env).value;
    var c := AiService.GenerateContentScript(trend, request, AnonymousUser, answer, st, parse);
    assert c.Ok?;
  }

  /** The 404 comes before any generation: the reply does not depend on the model. */
  lemma NotFoundBeforeGeneration(request: ContentGenerationRequest, env: Environment,
                                 a1: Result<string>, a2: Result<string>, s1: AiService.Stamp, s2: AiService.Stamp,
                                 p1: string -> Option<AiService.ParsedReply>,
                                 p2: string -> Option<AiService.ParsedReply>)
    requires TrendById(request.trendId, env).None?
    ensures GenerateContent(request, env, a1, s1, p1) == GenerateContent(request, env, a2, s2, p2)
  {
  }

  // ---------------------------------------------------------------- catalogues

  /** `GET /content-templates`. */
  function GetContentTemplates(): (r: Reply)
    ensures r.Json? && r.body.success && r.body.data == Some(TemplatesData(Catalog.ContentTemplates))
  {
    Success(TemplatesData(Catalog.ContentTemplates), "Content templates retrieved successfully")
  }

  /** `GET /tone-options`. */
  function GetToneOptions(): (r: Reply)
    ensures r.Json? && r.body.success && r.body.data == Some(TonesData(Catalog.ToneOptions))
  {
    Success(TonesData(Catalog.ToneOptions), "Tone options retrieved successfully")
  }

  /** `GET /user/content-history`: nothing is stored yet, so the history is always empty
      and `limit` is ignored. */
  function GetUserContentHistory(limit: int): (r: Reply)
    ensures r.Json? && r.body.data == Some(HistoryData([], 0))
  {
    Success(HistoryData([], 0), "Content history retrieved successfully")
  }

  // ---------------------------------------------------------------- statistics

  /** Python's `round` of the rational `num / den`: the nearest integer, ties to even. */
  function RoundHalfEven(num: int, den: int): (r: int)
    requires den > 0
    ensures den * (2 * r - 1) <= 2 * num <= den * (2 * r + 1)
    ensures (2 * num == den * (2 * r - 1) || 2 * num == den * (2 * r + 1)) ==> r % 2 == 0
  {
    var q := num / den;
    var rem := num % den;
    assert num == den * q + rem;
    if 2 * rem < den then q
    else if 2 * rem > den then q + 1
    else if q % 2 == 0 then q
    else q + 1
  }

  /** `[t for t in trends if t.contentScore >= 85]`. */
  function HighPotential(ts: seq<Trend>): (r: seq<Trend>)
    ensures |r| <= |ts|
    ensures forall t :: t in r <==> t in ts && t.contentScore >= 85
    ensures forall t :: multiset(r)[t] == if t.contentScore >= 85 then multiset(ts)[t] else 0
  {
    assert ts != [] ==> ts == [ts[0]] + ts[1..];
    if ts == [] then []
    else (if ts[0].contentScore >= 85 then [ts[0]] else []) + HighPotential(ts[1..])
  }

  function SumScores(ts: seq<Trend>): int {
    if ts == [] then 0 else ts[0].contentScore + SumScores(ts[1..])
  }

  function PlatformSet(ts: seq<Trend>): set<string> {
    set t | t in ts :: t.platform
  }

  /** The statistics of a listing: its size, the trends scoring 85 or more, the mean
      score rounded half to even (0 for no trends) and the number of distinct platforms. */
  function PlatformStats(ts: seq<Trend>): (s: Stats)
    ensures s.totalTrends == |ts|
    ensures s.highPotential == |HighPotential(ts)| <= s.totalTrends
    ensures s.platforms == |PlatformSet(ts)|
    ensures ts == [] ==> s.averageScore == 0
    ensures ts != [] ==> |ts| * (2 * s.averageScore - 1) <= 2 * SumScores(ts) <= |ts| * (2 * s.averageScore + 1)
    ensures ts != [] ==>
              (2 * SumScores(ts) == |ts| * (2 * s.averageScore - 1) || 2 * SumScores(ts) == |ts| * (2 * s.averageScore + 1))
              ==> s.averageScore % 2 == 0
  {
    var high := HighPotential(ts);
    var average := if ts == [] then 0 else RoundHalfEven(SumScores(ts), |ts|);
    Stats(|ts|, |high|, average, |PlatformSet(ts)|)
  }

  /** There are never more platforms than trends. */
  lemma {:induction false} PlatformsAtMostTrends(ts: seq<Trend>)
    ensures |PlatformSet(ts)| <= |ts|
  {
    if ts != [] {
      PlatformsAtMostTrends(ts[1..]);
      assert PlatformSet(ts) == {ts[0].platform} + PlatformSet(ts[1..]) by {
        assert forall t :: t in ts <==> t == ts[0] || t in ts[1..];
      }
    }
  }

  lemma {:induction false} SumBounds(ts: seq<Trend>, lo: int, hi: int)
    requires forall t :: t in ts ==> lo <= t.contentScore <= hi
    ensures |ts| * lo <= SumScores(ts) <= |ts| * hi
  {
    if ts != [] {
      SumBounds(ts[1..], lo, hi);
      assert ts[0] in ts;
    }
  }

  /** Scaling by a positive `den`: an integer `r` below `lo` keeps `r + 1/2` below `lo`. */
  lemma ScaledBelow(den: int, r: int, lo: int)
    requires den > 0 && r < lo
    ensures den * (2 * r + 1) < 2 * (den * lo)
  {
    assert 2 * (den * lo) - den * (2 * r + 1) == den * (2 * (lo - r) - 1);
  }

  /** An integer within half of `num / den` of a rational between two integers lies
      between them too. */
  lemma RoundedWithin(num: int, den: int, r: int, lo: int, hi: int)
    requires den > 0 && den * lo <= num <= den * hi
    requires den * (2 * r - 1) <= 2 * num <= den * (2 * r + 1)
    ensures lo <= r <= hi
  {
    if r < lo {
      ScaledBelow(den, r, lo);
      assert false;
    }
    if r > hi {
      ScaledBelow(den, -r, -hi);
      assert false;
    }
  }

  /** The mean score lies between the least and the greatest score. */
  lemma AverageWithinScores(ts: seq<Trend>, lo: int, hi: int)
    requires ts != []
    requires forall t :: t in ts ==> lo <= t.contentScore <= hi
    ensures lo <= PlatformStats(ts).averageScore <= hi
  {
    SumBounds(ts, lo, hi);
    RoundedWithin(SumScores(ts), |ts|, PlatformStats(ts).averageScore, lo, hi);
  }

  /** `GET /stats`: the statistics of the unfiltered listing of up to 100 trends. */
  function GetPlatformStats(env: Environment): (r: Reply)
    ensures TrendingTopics(None, None, 100, env).Err? <==> r.HttpError?
    ensures r.HttpError? ==> r.status == 500
    ensures r.Json? ==> r.body.data == Some(StatsData(PlatformStats(TrendingTopics(None, None, 100, env).value)))
  {
    match TrendingTopics(None, None, 100, env)
    case Err(m) => HttpError(500, "Error retrieving platform statistics: " + m)
    case Ok(ts) => Success(StatsData(PlatformStats(ts)), "Platform statistics retrieved successfully")
  }
}
