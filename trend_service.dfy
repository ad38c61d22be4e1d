/**
 * Backend trend selection: the built-in topic table, filtering by category and
 * platform, the AI-enhanced trend record, the deterministic hashtag generator,
 * sorting by content score with a `limit`, substring search and lookup by id.
 *
 * The AI analysis of a topic and the values the backend draws from uuid4, the
 * clock and `random` are supplied by an `Environment`: each listing call gets one.
 */
module TrendService {
  import opened Wrappers
  import opened Text
  import opened Models
  import Sorting
  import opened HashtagGen
  import opened TopicTable

  /** The parsed AI analysis of a topic: every key may be missing. `Unusable` is an
      answer the trend record cannot be built from (not an object, wrong field types);
      `reason` is the message of the exception that raises. */
  datatype Enhancement =
    | Analysis(contentScore: Option<int>, trendVelocity: Option<string>,
               keyInsights: Option<seq<string>>, suggestedAngles: Option<seq<string>>,
               category: Option<string>)
    | Unusable(reason: string)

  /** The per-trend values drawn from uuid4, the random engagement and timeframe
      generators and the clock. */
  datatype Stamp = Stamp(id: string, engagement: TrendEngagement, timeframe: string,
                         createdAt: int, updatedAt: int)

  /** What one listing call sees of the outside world: the AI analysis of a topic (or
      the exception it raised) and the stamp of a topic given its content score. */
  datatype Environment = Environment(
    analyse: TopicSeed -> Result<Enhancement>,
    stamp: (TopicSeed, int) -> Stamp)

  /** The analysis used when the AI call raises. */
  function FallbackEnhancement(seed: TopicSeed): (e: Enhancement)
    ensures e.Analysis? && e.contentScore == Some(seed.baseScore)
    ensures e.trendVelocity == Some("Steady Growth") && e.category == Some(seed.category)
    ensures e.keyInsights.Some? && |e.keyInsights.value| == 3
    ensures e.suggestedAngles.Some? && |e.suggestedAngles.value| == 3
  {
    Analysis(
      Some(seed.baseScore),
      Some("Steady Growth"),
      Some(["Growing interest in " + seed.topic,
            "Popular on " + seed.platform + " platform",
            "Good potential for content creation"]),
      Some(["Beginner's guide to " + seed.topic,
            "Latest trends in " + seed.topic,
            "How " + seed.topic + " affects you"]),
      Some(seed.category))
  }

  /** The analysis of a topic, falling back when the AI call raises. */
  function Enhance(seed: TopicSeed, env: Environment): Enhancement {
    match env.analyse(seed)
    case Ok(e) => e
    case Err(_) => FallbackEnhancement(seed)
  }

  /** Builds the trend record of a topic. The engagement generator reads the score with
      `enhanced_data["contentScore"]`, so an analysis without a score raises `KeyError`
      before any default is applied. */
  function CreateTrend(seed: TopicSeed, e: Enhancement, env: Environment): (r: Result<Trend>)
    ensures r.Ok? <==> e.Analysis? && e.contentScore.Some?
    ensures r.Ok? ==> r.value.topic == seed.topic && r.value.platform == seed.platform
    ensures r.Ok? ==> r.value.contentScore == e.contentScore.value
    ensures r.Ok? ==> r.value.hashtags == Hashtags(seed.topic)
    ensures r.Ok? ==> r.value.category == e.category.GetOr(seed.category)
    ensures r.Ok? ==> r.value.trendVelocity == e.trendVelocity.GetOr("Steady Growth")
    ensures r.Ok? ==> r.value.keyInsights == e.keyInsights.GetOr([])
    ensures r.Ok? ==> r.value.suggestedAngles == e.suggestedAngles.GetOr([])
  {
    match e
    case Unusable(reason) => Err(reason)
    case Analysis(score, velocity, insights, angles, category) =>
      if score.None? then Err("'contentScore'")
      else
        var st := env.stamp(seed, score.value);
        Ok(Trend(st.id, seed.topic, seed.platform, Hashtags(seed.topic), score.value,
                 velocity.GetOr("Steady Growth"), st.engagement, insights.GetOr([]),
                 angles.GetOr([]), st.timeframe, category.GetOr(seed.category),
                 st.createdAt, st.updatedAt))
  }

  /** When the AI call raises, the topic still yields a trend, scored by the table. */
  lemma FallbackAlwaysBuilds(seed: TopicSeed, env: Environment)
    requires env.analyse(seed).Err?
    ensures CreateTrend(seed, Enhance(seed, env), env).Ok?
    ensures CreateTrend(seed, Enhance(seed, env), env).value.contentScore == seed.baseScore
  {
  }

  // ---------------------------------------------------------------- filtering

  /** A falsy filter (missing or empty) keeps everything; the category is compared
      ignoring case, the platform exactly. */
  predicate Keeps(seed: TopicSeed, category: Option<string>, platform: Option<string>) {
    && (category.None? || category.value == "" || Lower(seed.category) == Lower(category.value))
    && (platform.None? || platform.value == "" || seed.platform == platform.value)
  }

  /** The seeds a filter keeps, in table order. */
  function Kept(seeds: seq<TopicSeed>, category: Option<string>, platform: Option<string>): seq<TopicSeed> {
    if seeds == [] then []
    else (if Keeps(seeds[0], category, platform) then [seeds[0]] else [])
         + Kept(seeds[1..], category, platform)
  }

  /** The loop of the listing: one trend per kept seed, in table order; the first seed
      whose trend cannot be built raises. */
  function Collect(seeds: seq<TopicSeed>, category: Option<string>, platform: Option<string>,
                   env: Environment): Result<seq<Trend>>
  {
    if seeds == [] then Ok([])
    else if !Keeps(seeds[0], category, platform) then Collect(seeds[1..], category, platform, env)
    else match CreateTrend(seeds[0], Enhance(seeds[0], env), env)
      case Err(m) => Err(m)
      case Ok(t) => Prepend([t], Collect(seeds[1..], category, platform, env))
  }

  function Prepend(ts: seq<Trend>, r: Result<seq<Trend>>): Result<seq<Trend>> {
    match r
    case Ok(rest) => Ok(ts + rest)
    case Err(m) => Err(m)
  }

  /** A listing succeeds exactly when every kept seed yields a trend. */
  lemma {:induction false} CollectOk(seeds: seq<TopicSeed>, category: Option<string>,
                                     platform: Option<string>, env: Environment)
    ensures Collect(seeds, category, platform, env).Ok? <==>
            forall s :: s in Kept(seeds, category, platform) ==> CreateTrend(s, Enhance(s, env), env).Ok?
  {
    if seeds != [] {
      CollectOk(seeds[1..], category, platform, env);
    }
  }

  /** A successful listing holds one trend per kept seed, with that seed's topic and
      platform, in table order. */
  lemma {:induction false} CollectShape(seeds: seq<TopicSeed>, category: Option<string>,
                                        platform: Option<string>, env: Environment)
    requires Collect(seeds, category, platform, env).Ok?
    ensures var ts := Collect(seeds, category, platform, env).value;
            var ks := Kept(seeds, category, platform);
            && |ts| == |ks|
            && forall i :: 0 <= i < |ts| ==> ts[i].topic == ks[i].topic && ts[i].platform == ks[i].platform
  {
    if seeds != [] {
      CollectShape(seeds[1..], category, platform, env);
      var ks := Kept(seeds, category, platform);
      var ks' := Kept(seeds[1..], category, platform);
      var ts := Collect(seeds, category, platform, env).value;
      var ts' := Collect(seeds[1..], category, platform, env).value;
      if Keeps(seeds[0], category, platform) {
        CollectKeptHead(seeds, category, platform, env);
        assert ks == [seeds[0]] + ks';
        forall i | 0 <= i < |ts| ensures ts[i].topic == ks[i].topic && ts[i].platform == ks[i].platform {
          if i > 0 {
            assert ts[i] == ts'[i - 1];
            assert ks[i] == ks'[i - 1];
          }
        }
      } else {
        assert ts == ts' && ks == ks';
      }
    }
  }

  /** A kept first seed puts its trend at the head of the listing. */
  lemma CollectKeptHead(seeds: seq<TopicSeed>, category: Option<string>,
                        platform: Option<string>, env: Environment)
    requires seeds != [] && Keeps(seeds[0], category, platform)
    requires Collect(seeds, category, platform, env).Ok?
    ensures Collect(seeds[1..], category, platform, env).Ok?
    ensures var ts := Collect(seeds, category, platform, env).value;
            && ts != []
            && ts[0].topic == seeds[0].topic && ts[0].platform == seeds[0].platform
            && ts[1..] == Collect(seeds[1..], category, platform, env).value
  {
    var t := CreateTrend(seeds[0], Enhance(seeds[0], env), env).value;
    var ts := Collect(seeds, category, platform, env).value;
    assert ts == [t] + Collect(seeds[1..], category, platform, env).value;
  }

  /** Without a filter every seed is kept. */
  lemma {:induction false} NoFilterKeepsAll(seeds: seq<TopicSeed>, category: Option<string>, platform: Option<string>)
    requires category.None? || category.value == ""
    requires platform.None? || platform.value == ""
    ensures Kept(seeds, category, platform) == seeds
  {
    if seeds != [] {
      NoFilterKeepsAll(seeds[1..], category, platform);
    }
  }

  /** A seed is kept exactly when it satisfies the filter. */
  lemma {:induction false} KeptMembers(seeds: seq<TopicSeed>, category: Option<string>, platform: Option<string>)
    ensures forall s :: s in Kept(seeds, category, platform) <==> s in seeds && Keeps(s, category, platform)
  {
    if seeds != [] {
      KeptMembers(seeds[1..], category, platform);
      assert seeds == [seeds[0]] + seeds[1..];
    }
  }

  // ---------------------------------------------------------------- listing

  function ContentScoreOf(t: Trend): int {
    t.contentScore
  }

  /** The listing over a topic table: the trends of the kept seeds, sorted by
      non-increasing content score (stably), truncated by the Python slice `[:limit]`. */
  function Listing(seeds: seq<TopicSeed>, category: Option<string>, platform: Option<string>,
                   limit: int, env: Environment): Result<seq<Trend>>
  {
    match Collect(seeds, category, platform, env)
    case Err(m) => Err(m)
    case Ok(ts) => Ok(PyTake(Sorting.SortDesc(ts, ContentScoreOf), limit))
  }

  /** `get_trending_topics`: the listing over the built-in table. */
  function TrendingTopics(category: Option<string>, platform: Option<string>, limit: int,
                          env: Environment): Result<seq<Trend>>
  {
    Listing(MockTopics, category, platform, limit, env)
  }

  lemma PrefixSorted(s: seq<Trend>, n: nat)
    requires n <= |s| && Sorting.SortedDesc(s, ContentScoreOf)
    ensures Sorting.SortedDesc(s[..n], ContentScoreOf)
  {
  }

  /** A listing is ordered by non-increasing score, holds at most `limit` trends, and
      every trend comes from a seed the filter keeps; with a limit of at least the
      number of kept seeds it holds one trend for each of them. */
  lemma ListingProperties(seeds: seq<TopicSeed>, category: Option<string>, platform: Option<string>,
                          limit: int, env: Environment)
    requires Listing(seeds, category, platform, limit, env).Ok?
    ensures var ts := Listing(seeds, category, platform, limit, env).value;
            && Sorting.SortedDesc(ts, ContentScoreOf)
            && (limit >= 0 ==> |ts| <= limit)
            && (forall t :: t in ts ==> exists s :: s in seeds && Keeps(s, category, platform)
                                                 && s.topic == t.topic && s.platform == t.platform)
            && (limit >= |Kept(seeds, category, platform)| ==>
                  |ts| == |Kept(seeds, category, platform)|)
  {
    var all := Collect(seeds, category, platform, env).value;
    var sorted := Sorting.SortDesc(all, ContentScoreOf);
    Sorting.SortDescCorrect(all, ContentScoreOf);
    var ts := PyTake(sorted, limit);
    PrefixSorted(sorted, |ts|);
    CollectShape(seeds, category, platform, env);
    KeptMembers(seeds, category, platform);
    var ks := Kept(seeds, category, platform);
    forall t | t in ts
      ensures exists s :: s in seeds && Keeps(s, category, platform)
                          && s.topic == t.topic && s.platform == t.platform
    {
      assert t in multiset(sorted);
      assert t in all;
      var i :| 0 <= i < |all| && all[i] == t;
      assert ks[i] in ks;
    }
    assert |sorted| == |all| by {
      assert |multiset(sorted)| == |multiset(all)|;
    }
  }

  lemma PrependTwice(u: seq<Trend>, v: seq<Trend>, r: Result<seq<Trend>>)
    ensures Prepend(u, Prepend(v, r)) == Prepend(u + v, r)
  {
    if r.Ok? {
      assert u + (v + r.value) == (u + v) + r.value;
    }
  }

  /** One step of the listing, at position `i` of the table. */
  lemma CollectAt(seeds: seq<TopicSeed>, i: nat, category: Option<string>, platform: Option<string>,
                  env: Environment)
    requires i < |seeds|
    ensures Collect(seeds[i..], category, platform, env) ==
            if !Keeps(seeds[i], category, platform) then Collect(seeds[i + 1..], category, platform, env)
            else match CreateTrend(seeds[i], Enhance(seeds[i], env), env)
              case Err(m) => Err(m)
              case Ok(t) => Prepend([t], Collect(seeds[i + 1..], category, platform, env))
  {
    assert seeds[i..][1..] == seeds[i + 1..];
  }

  /** The loop of the listing: appends one trend per kept seed; the first seed whose
      trend cannot be built ends it with that error. */
  method CollectTrends(seeds: seq<TopicSeed>, category: Option<string>, platform: Option<string>,
                       env: Environment) returns (r: Result<seq<Trend>>)
    ensures r == Collect(seeds, category, platform, env)
  {
    var trends: seq<Trend> := [];
    var i := 0;
    assert seeds[0..] == seeds;
    assert Prepend([], Collect(seeds, category, platform, env)) == Collect(seeds, category, platform, env) by {
      assert forall u: seq<Trend> :: [] + u == u;
    }
    while i < |seeds|
      invariant 0 <= i <= |seeds|
      invariant Collect(seeds, category, platform, env)
                == Prepend(trends, Collect(seeds[i..], category, platform, env))
    {
      var seed := seeds[i];
      CollectAt(seeds, i, category, platform, env);
      if Keeps(seed, category, platform) {
        var built := CreateTrend(seed, Enhance(seed, env), env);
        if built.Err? {
          return Err(built.message);
        }
        PrependTwice(trends, [built.value], Collect(seeds[i + 1..], category, platform, env));
        trends := trends + [built.value];
      }
      i := i + 1;
    }
    assert Collect(seeds[i..], category, platform, env) == Ok([]);
    assert trends + [] == trends;
    r := Ok(trends);
  }

  /** The ordering step of the listing: an in-place sort of a copy, then `[:limit]`. */
  method SortAndTake(trends: seq<Trend>, limit: int) returns (r: seq<Trend>)
    ensures r == PyTake(Sorting.SortDesc(trends, ContentScoreOf), limit)
  {
    var a := new Trend[|trends|](k requires 0 <= k < |trends| => trends[k]);
    assert a[..] == trends;
    Sorting.SortDescInPlace(a, ContentScoreOf);
    r := PyTake(a[..], limit);
  }

  /** The listing as the backend runs it: the loop, the sort and the slice. */
  method GetTrendingTopics(category: Option<string>, platform: Option<string>, limit: int,
                           env: Environment) returns (r: Result<seq<Trend>>)
    ensures r == TrendingTopics(category, platform, limit, env)
  {
    var collected := CollectTrends(MockTopics, category, platform, env);
    if collected.Err? {
      return Err(collected.message);
    }
    var sorted := SortAndTake(collected.value, limit);
    r := Ok(sorted);
  }

  // ---------------------------------------------------------------- search

  /** A trend matches a lower-cased query when its lower-cased topic, one of its
      hashtags or one of its key insights contains it. */
  predicate MatchesQuery(t: Trend, q: string) {
    || Contains(Lower(t.topic), q)
    || (exists h :: h in t.hashtags && Contains(Lower(h), q))
    || (exists s :: s in t.keyInsights && Contains(Lower(s), q))
  }

  /** The matching trends, in order. */
  function Matching(ts: seq<Trend>, q: string): seq<Trend> {
    if ts == [] then []
    else Matching(ts[..|ts| - 1], q) + (if MatchesQuery(ts[|ts| - 1], q) then [ts[|ts| - 1]] else [])
  }

  /** `search_trends`: the listing with limit 100, the matching trends, `[:limit]`; an
      exception gives the empty list. */
  function SearchResult(query: string, category: Option<string>, platform: Option<string>,
                        limit: int, env: Environment): seq<Trend>
  {
    match TrendingTopics(category, platform, 100, env)
    case Err(_) => []
    case Ok(ts) => PyTake(Matching(ts, Lower(query)), limit)
  }

  /** The matching trends are exactly the members that match. */
  lemma {:induction false} MatchingMembers(ts: seq<Trend>, q: string)
    ensures forall t :: t in Matching(ts, q) <==> t in ts && MatchesQuery(t, q)
  {
    if ts != [] {
      var init := ts[..|ts| - 1];
      MatchingMembers(init, q);
      assert ts == init + [ts[|ts| - 1]];
    }
  }

  /** Filtering keeps the sort order. */
  lemma {:induction false} MatchingSorted(ts: seq<Trend>, q: string)
    requires Sorting.SortedDesc(ts, ContentScoreOf)
    ensures Sorting.SortedDesc(Matching(ts, q), ContentScoreOf)
  {
    if ts != [] {
      var init := ts[..|ts| - 1];
      MatchingSorted(init, q);
      MatchingMembers(init, q);
      var m := Matching(init, q);
      if MatchesQuery(ts[|ts| - 1], q) {
        forall i | 0 <= i < |m| ensures ContentScoreOf(m[i]) >= ContentScoreOf(ts[|ts| - 1]) {
          assert m[i] in init;
        }
      }
    }
  }

  /** The first `limit` matching trends of a sorted list: a prefix of all the matching
      ones, every one of them matches and is listed, they stay sorted, and when `limit`
      covers every match, no matching trend is missing. */
  lemma TakeMatching(ts: seq<Trend>, q: string, limit: int)
    requires Sorting.SortedDesc(ts, ContentScoreOf)
    ensures var m := Matching(ts, q);
            var r := PyTake(m, limit);
            && (forall t :: t in r ==> MatchesQuery(t, q) && t in ts)
            && Sorting.SortedDesc(r, ContentScoreOf)
            && r == m[..|r|]
            && (limit >= 0 ==> |r| == if limit <= |m| then limit else |m|)
            && (limit >= |m| ==> forall t :: t in ts && MatchesQuery(t, q) ==> t in r)
  {
    var m := Matching(ts, q);
    MatchingMembers(ts, q);
    MatchingSorted(ts, q);
    var r := PyTake(m, limit);
    assert forall t :: t in r ==> t in m;
    PrefixSorted(m, |r|);
    if limit >= |m| {
      assert r == m;
    }
  }

  /** Every search result matches the query and is a trend of the listing; results are
      ordered by score, at most `limit` of them. They are the first matching trends
      of the listing, and when `limit` covers every match, all of them; a failed
      listing gives no results. */
  lemma SearchResultProperties(query: string, category: Option<string>, platform: Option<string>,
                               limit: int, env: Environment)
    ensures var r := SearchResult(query, category, platform, limit, env);
            && (forall t :: t in r ==>
                  && MatchesQuery(t, Lower(query))
                  && TrendingTopics(category, platform, 100, env).Ok?
                  && t in TrendingTopics(category, platform, 100, env).value)
            && Sorting.SortedDesc(r, ContentScoreOf)
            && (limit >= 0 ==> |r| <= limit)
            && (TrendingTopics(category, platform, 100, env).Err? ==> r == [])
            && (TrendingTopics(category, platform, 100, env).Ok? ==>
                  var listed := TrendingTopics(category, platform, 100, env).value;
                  var m := Matching(listed, Lower(query));
                  && r == m[..|r|]
                  && (limit >= 0 ==> |r| == if limit <= |m| then limit else |m|)
                  && (limit >= |m| ==> forall t :: t in listed && MatchesQuery(t, Lower(query)) ==> t in r))
  {
    var listing := TrendingTopics(category, platform, 100, env);
    if listing.Ok? {
      ListingProperties(MockTopics, category, platform, 100, env);
      TakeMatching(listing.value, Lower(query), limit);
    }
  }

  /** The search as the backend runs it. */
  method SearchTrends(query: string, category: Option<string>, platform: Option<string>,
                      limit: int, env: Environment) returns (r: seq<Trend>)
    ensures r == SearchResult(query, category, platform, limit, env)
  {
    var all := GetTrendingTopics(category, platform, 100, env);
    if all.Err? {
      return [];
    }
    var matching := FilterMatching(all.value, Lower(query));
    r := PyTake(matching, limit);
  }

  /** The filtering loop of the search. */
  method FilterMatching(ts: seq<Trend>, q: string) returns (matching: seq<Trend>)
    ensures matching == Matching(ts, q)
  {
    matching := [];
    for k := 0 to |ts|
      invariant matching == Matching(ts[..k], q)
    {
      assert ts[..k + 1][..k] == ts[..k];
      if MatchesQuery(ts[k], q) {
        matching := matching + [ts[k]];
      }
    }
    assert ts[..|ts|] == ts;
  }

  // ---------------------------------------------------------------- lookup by id

  /** The first trend with the given id. */
  function FindById(ts: seq<Trend>, id: string): (r: Option<Trend>)
    ensures r.None? <==> forall i :: 0 <= i < |ts| ==> ts[i].id != id
    ensures r.Some? ==> exists i :: 0 <= i < |ts| && ts[i] == r.value && r.value.id == id
                                    && forall j :: 0 <= j < i ==> ts[j].id != id
  {
    if ts == [] then None
    else if ts[0].id == id then Some(ts[0])
    else
      FindById(ts[1..], id)
  }

  /** `get_trend_by_id`: a search of the listing with limit 50; an exception gives None. */
  function TrendById(id: string, env: Environment): Option<Trend> {
    match TrendingTopics(None, None, 50, env)
    case Err(_) => None
    case Ok(ts) => FindById(ts, id)
  }

  /** The lookup as the backend runs it: a loop with an early return. */
  method GetTrendById(id: string, env: Environment) returns (r: Option<Trend>)
    ensures r == TrendById(id, env)
  {
    var listing := GetTrendingTopics(None, None, 50, env);
    if listing.Err? {
      return None;
    }
    var ts := listing.value;
    var i := 0;
    while i < |ts|
      invariant 0 <= i <= |ts|
      invariant FindById(ts, id) == FindById(ts[i..], id)
    {
      assert ts[i..][1..] == ts[i + 1..];
      if ts[i].id == id {
        return Some(ts[i]);
      }
      i := i + 1;
    }
    r := None;
  }
}
