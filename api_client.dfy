/**
 * The frontend's API client: the query string of the trend listing, built one
 * conditional parameter at a time, the request paths, and the unwrapping of the
 * backend's `{success, data, message}` envelope with a default message per operation.
 *
 * A request's outcome is a `Transport` value: the decoded envelope, or the message of
 * the error the HTTP client raised (network failure, non-2xx status, timeout).
 */
module ApiClient {
  import opened Wrappers
  import opened Text
  import opened Models

  /** The optional parameters of `getTrendingTopics`; `None` is an omitted key. */
  datatype TrendParams = TrendParams(category: Option<string>, platform: Option<string>,
                                     search: Option<string>, limit: Option<int>, page: Option<int>)

  predicate TruthyString(s: Option<string>) { s.Some? && s.value != "" }
  predicate TruthyNumber(n: Option<int>) { n.Some? && n.value != 0 }

  /** A category or platform filter is sent when it is truthy and not 'all'. */
  predicate SendsFilter(s: Option<string>) { TruthyString(s) && s.value != "all" }

  /** The query keys, in the order the builder appends them. */
  datatype Key = Category | Platform | Search | Limit | Page

  function KeyName(k: Key): string {
    match k
    case Category => "category"
    case Platform => "platform"
    case Search => "search"
    case Limit => "limit"
    case Page => "page"
  }

  function KeyRank(k: Key): nat {
    match k
    case Category => 0
    case Platform => 1
    case Search => 2
    case Limit => 3
    case Page => 4
  }

  function PairIf(hit: bool, key: Key, value: string): seq<(Key, string)> {
    if hit then [(key, value)] else []
  }

  /** The query parameters, in the order the builder appends them. */
  function QueryPairs(p: TrendParams): seq<(Key, string)> {
    PairIf(SendsFilter(p.category), Category, p.category.GetOr(""))
    + PairIf(SendsFilter(p.platform), Platform, p.platform.GetOr(""))
    + PairIf(TruthyString(p.search), Search, p.search.GetOr(""))
    + PairIf(TruthyNumber(p.limit), Limit, IntToString(p.limit.GetOr(0)))
    + PairIf(TruthyNumber(p.page), Page, IntToString(p.page.GetOr(0)))
  }

  /** Each key is present exactly when its condition holds, with the given value. */
  lemma QueryPairsMembers(p: TrendParams)
    ensures var q := QueryPairs(p);
            && ((Category, p.category.GetOr("")) in q <==> SendsFilter(p.category))
            && ((Platform, p.platform.GetOr("")) in q <==> SendsFilter(p.platform))
            && ((Search, p.search.GetOr("")) in q <==> TruthyString(p.search))
            && ((Limit, IntToString(p.limit.GetOr(0))) in q <==> TruthyNumber(p.limit))
            && ((Page, IntToString(p.page.GetOr(0))) in q <==> TruthyNumber(p.page))
  {
  }

  /** Keys always come in the order category, platform, search, limit, page. */
  lemma QueryPairsOrdered(p: TrendParams)
    ensures var q := QueryPairs(p);
            forall i, j :: 0 <= i < j < |q| ==> KeyRank(q[i].0) < KeyRank(q[j].0)
  {
  }

  /** A limit or page of 0 is omitted like a missing one. */
  lemma ZeroIsOmitted(p: TrendParams)
    requires p.limit == Some(0) && p.page == Some(0)
    ensures QueryPairs(p) == QueryPairs(p.(limit := None, page := None))
  {
  }

  /** The builder as the client runs it: five conditional appends. */
  method BuildQuery(p: TrendParams) returns (pairs: seq<(Key, string)>)
    ensures pairs == QueryPairs(p)
  {
    pairs := [];
    if p.category.Some? && p.category.value != "" && p.category.value != "all" {
      pairs := [(Category, p.category.value)];
    }
    assert pairs == PairIf(SendsFilter(p.category), Category, p.category.GetOr(""));
    if p.platform.Some? && p.platform.value != "" && p.platform.value != "all" {
      pairs := pairs + [(Platform, p.platform.value)];
    } else {
      assert pairs + [] == pairs;
    }
    assert pairs == PairIf(SendsFilter(p.category), Category, p.category.GetOr(""))
                    + PairIf(SendsFilter(p.platform), Platform, p.platform.GetOr(""));
    if p.search.Some? && p.search.value != "" {
      pairs := pairs + [(Search, p.search.value)];
    } else {
      assert pairs + [] == pairs;
    }
    if p.limit.Some? && p.limit.value != 0 {
      pairs := pairs + [(Limit, IntToString(p.limit.value))];
    } else {
      assert pairs + [] == pairs;
    }
    if p.page.Some? && p.page.value != 0 {
      pairs := pairs + [(Page, IntToString(p.page.value))];
    } else {
      assert pairs + [] == pairs;
    }
  }

  /** `URLSearchParams.toString()` without percent-encoding. */
  function QueryString(pairs: seq<(Key, string)>): (s: string)
    ensures s == "" <==> pairs == []
  {
    if pairs == [] then ""
    else if |pairs| == 1 then KeyName(pairs[0].0) + "=" + pairs[0].1
    else QueryString(pairs[..|pairs| - 1]) + "&" + KeyName(pairs[|pairs| - 1].0) + "=" + pairs[|pairs| - 1].1
  }

  /** The path of the listing request. */
  function TrendsUrl(p: TrendParams): (url: string)
    ensures QueryPairs(p) == [] ==> url == "/trends"
    ensures QueryPairs(p) != [] ==> url == "/trends?" + QueryString(QueryPairs(p))
  {
    var q := QueryString(QueryPairs(p));
    if q != "" then "/trends?" + q else "/trends"
  }

  /** The path is bare exactly when no parameter is truthy (or the filters are 'all'). */
  lemma BareTrendsUrl(p: TrendParams)
    ensures TrendsUrl(p) == "/trends" <==>
              !SendsFilter(p.category) && !SendsFilter(p.platform) && !TruthyString(p.search)
              && !TruthyNumber(p.limit) && !TruthyNumber(p.page)
  {
    if QueryPairs(p) != [] {
      assert |"/trends?" + QueryString(QueryPairs(p))| > |"/trends"|;
    }
  }

  /** `getTrendById`'s path: the id follows "/trends/" unchanged. */
  function TrendUrl(trendId: string): (url: string)
    ensures |url| == |trendId| + 8 && url[..8] == "/trends/" && url[8..] == trendId
  {
    "/trends/" + trendId
  }

  /** Different ids give different paths, and no id gives the bare listing path. */
  lemma TrendUrlInjective(a: string, b: string)
    ensures TrendUrl(a) == TrendUrl(b) <==> a == b
    ensures TrendUrl(a) != "/trends"
  {
    if TrendUrl(a) == TrendUrl(b) {
      assert a == TrendUrl(a)[8..];
    }
    assert |TrendUrl(a)| > |"/trends"|;
  }

  /** `getUserContentHistory(limit = 20)`. */
  function HistoryUrl(limit: Option<int>): (url: string)
    ensures limit.None? ==> url == "/user/content-history?limit=20"
    ensures limit.Some? ==> url == "/user/content-history?limit=" + IntToString(limit.value)
  {
    TwentyRendered();
    "/user/content-history?limit=" + IntToString(limit.GetOr(20))
  }

  // ---------------------------------------------------------------- envelopes

  datatype Transport<+T> = Delivered(response: ApiResponse<T>) | TransportFailed(message: string)

  /** The envelope check shared by every method: `data` on success; otherwise the
      server's message, or `fallback` when that is empty; a transport error is
      re-thrown unchanged. */
  function Unwrap<T>(t: Transport<T>, fallback: string): (r: Result<Option<T>>)
    ensures t.TransportFailed? ==> r == Err(t.message)
    ensures t.Delivered? && t.response.success ==> r == Ok(t.response.data)
    ensures t.Delivered? && !t.response.success && t.response.message != "" ==> r == Err(t.response.message)
    ensures t.Delivered? && !t.response.success && t.response.message == "" ==> r == Err(fallback)
  {
    match t
    case TransportFailed(m) => Err(m)
    case Delivered(resp) =>
      if resp.success then Ok(resp.data)
      else Err(if resp.message != "" then resp.message else fallback)
  }

  /** A refused envelope always yields a non-empty error message. */
  lemma RefusalHasMessage<T>(t: Transport<T>, fallback: string)
    requires t.Delivered? && !t.response.success && fallback != ""
    ensures Unwrap(t, fallback).Err? && Unwrap(t, fallback).message != ""
  {
  }

  const TrendsFailed := "Failed to fetch trends"
  const TrendFailed := "Failed to fetch trend"
  const GenerateFailed := "Failed to generate content"
  const TemplatesFailed := "Failed to fetch templates"
  const TonesFailed := "Failed to fetch tone options"
  const StatsFailed := "Failed to fetch stats"
  const HistoryFailed := "Failed to fetch content history"

  /** `r` is how a method with default message `fallback` answers `t`: the delivered
      `data` on success, the server's message or else `fallback` on a refusal, and a
      transport error unchanged. */
  predicate AnswersWith<T(==)>(t: Transport<T>, r: Result<Option<T>>, fallback: string) {
    && (t.TransportFailed? ==> r == Err(t.message))
    && (t.Delivered? && t.response.success ==> r == Ok(t.response.data))
    && (t.Delivered? && !t.response.success ==>
          r == Err(if t.response.message != "" then t.response.message else fallback))
  }

  /** `getTrendingTopics`: the `data` of the listing envelope (`{trends, total, page,
      limit}`), defaulting its refusal to "Failed to fetch trends". */
  function TrendingTopicsResult(t: Transport<TrendsPage>): (r: Result<Option<TrendsPage>>)
    ensures AnswersWith(t, r, "Failed to fetch trends")
  {
    Unwrap(t, TrendsFailed)
  }

  /** `getTrendById`, defaulting its refusal to "Failed to fetch trend". */
  function TrendByIdResult(t: Transport<Trend>): (r: Result<Option<Trend>>)
    ensures AnswersWith(t, r, "Failed to fetch trend")
  {
    Unwrap(t, TrendFailed)
  }

  /** The `data` of the generation envelope: the new script's id and the script. */
  datatype Generated = Generated(id: string, content: GeneratedContent)

  /** `generateContent`, defaulting its refusal to "Failed to generate content". */
  function GenerateContentResult(t: Transport<Generated>): (r: Result<Option<Generated>>)
    ensures AnswersWith(t, r, "Failed to generate content")
  {
    Unwrap(t, GenerateFailed)
  }

  /** `getPlatformStats`, defaulting its refusal to "Failed to fetch stats". */
  function StatsResult(t: Transport<Stats>): (r: Result<Option<Stats>>)
    ensures AnswersWith(t, r, "Failed to fetch stats")
  {
    Unwrap(t, StatsFailed)
  }

  datatype History = History(contentHistory: seq<GeneratedContent>, total: int)

  /** `getUserContentHistory`, defaulting its refusal to "Failed to fetch content history". */
  function HistoryResult(t: Transport<History>): (r: Result<Option<History>>)
    ensures AnswersWith(t, r, "Failed to fetch content history")
  {
    Unwrap(t, HistoryFailed)
  }

  /** The seven default messages are pairwise different, so a refusal without a server
      message names the operation that was refused. */
  lemma DefaultMessagesDistinct()
    ensures |[TrendsFailed, TrendFailed, GenerateFailed, TemplatesFailed, TonesFailed, StatsFailed, HistoryFailed]| == 7
    ensures forall i, j :: 0 <= i < j < 7 ==>
              [TrendsFailed, TrendFailed, GenerateFailed, TemplatesFailed, TonesFailed, StatsFailed, HistoryFailed][i]
              != [TrendsFailed, TrendFailed, GenerateFailed, TemplatesFailed, TonesFailed, StatsFailed, HistoryFailed][j]
  {
  }

  datatype TemplatesBody = TemplatesBody(templates: seq<ContentTemplate>)
  datatype TonesBody = TonesBody(tones: seq<ToneOption>)

  /** Reading a field of a null `data` raises a `TypeError`. */
  function NullField(field: string): string {
    "Cannot read properties of null (reading '" + field + "')"
  }

  /** `getContentTemplates`: the `templates` of the envelope's `data`. */
  function ContentTemplatesResult(t: Transport<TemplatesBody>): (r: Result<seq<ContentTemplate>>)
    ensures t.Delivered? && t.response.success && t.response.data.Some? ==>
              r == Ok(t.response.data.value.templates)
    ensures Unwrap(t, TemplatesFailed).Err? ==> r == Err(Unwrap(t, TemplatesFailed).message)
  {
    match Unwrap(t, TemplatesFailed)
    case Err(m) => Err(m)
    case Ok(None) => Err(NullField("templates"))
    case Ok(Some(body)) => Ok(body.templates)
  }

  /** `getToneOptions`: the `tones` of the envelope's `data`. */
  function ToneOptionsResult(t: Transport<TonesBody>): (r: Result<seq<ToneOption>>)
    ensures t.Delivered? && t.response.success && t.response.data.Some? ==>
              r == Ok(t.response.data.value.tones)
    ensures Unwrap(t, TonesFailed).Err? ==> r == Err(Unwrap(t, TonesFailed).message)
  {
    match Unwrap(t, TonesFailed)
    case Err(m) => Err(m)
    case Ok(None) => Err(NullField("tones"))
    case Ok(Some(body)) => Ok(body.tones)
  }
}
