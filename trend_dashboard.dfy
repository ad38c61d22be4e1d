/**
 * The trend dashboard: its state, the listing request it builds from the filters,
 * the client-side sort of the answer, the stats panel, the debounced reload on a
 * filter change, "Clear Filters", "Retry" and the choice of what to render.
 *
 * A request is split into the event that issues it (`BeginLoad`, which returns the
 * parameters sent) and the event that delivers its outcome (`CompleteLoad`); the
 * 500 ms debounce timer is a flag that a filter change arms and `DebounceElapsed`
 * consumes.
 *
 * `loadTrends` is a closure over the render that created it: it sorts the answer by
 * the `sortBy` of that render, not by the one current when the answer arrives. The
 * event that issues a request therefore also returns that sort key, and
 * `CompleteLoad` takes it back: the mount load and "Retry" capture the key current
 * when they run, and the debounce timer the key of the render that armed it.
 */
module TrendDashboard {
  import opened Wrappers
  import opened Text
  import opened Models
  import Sorting
  import ApiClient

  const LoadFailed := "Failed to load trends. Please try again."
  const InitialStats := Stats(0, 0, 0, 4)
  const PageSize := 20

  function ScoreKey(t: Trend): int { t.contentScore }
  function RecencyKey(t: Trend): int { t.createdAt }

  /** The parameters `loadTrends` sends: always limit 20 and page 1, the trimmed search
      term when it is not empty, and each filter that is not 'all'. */
  function LoadParams(search: string, category: string, platform: string): ApiClient.TrendParams {
    ApiClient.TrendParams(
      if category != "all" then Some(category) else None,
      if platform != "all" then Some(platform) else None,
      if JsTrim(search) != "" then Some(JsTrim(search)) else None,
      Some(PageSize), Some(1))
  }

  /** What reaches the wire: limit and page always; the search key exactly when the
      trimmed term is not empty; a filter exactly when it is neither 'all' nor empty. */
  lemma LoadQuery(search: string, category: string, platform: string)
    ensures var q := ApiClient.QueryPairs(LoadParams(search, category, platform));
            && (ApiClient.Limit, "20") in q
            && (ApiClient.Page, "1") in q
            && ((ApiClient.Search, JsTrim(search)) in q <==> JsTrim(search) != "")
            && ((ApiClient.Category, category) in q <==> category != "all" && category != "")
            && ((ApiClient.Platform, platform) in q <==> platform != "all" && platform != "")
  {
    var p := LoadParams(search, category, platform);
    ApiClient.QueryPairsMembers(p);
    TwentyRendered();
  }

  /** The parameters of the first page of twenty, without filters. */
  lemma FirstPagePairs()
    ensures ApiClient.QueryPairs(ApiClient.TrendParams(None, None, None, Some(20), Some(1)))
            == [(ApiClient.Limit, "20"), (ApiClient.Page, "1")]
  {
    TwentyRendered();
  }

  lemma FirstPageQueryString()
    ensures ApiClient.QueryString([(ApiClient.Limit, "20"), (ApiClient.Page, "1")]) == "limit=20&page=1"
  {
    var q := [(ApiClient.Limit, "20"), (ApiClient.Page, "1")];
    assert q[..1] == [(ApiClient.Limit, "20")];
  }

  lemma FirstPageUrl()
    ensures ApiClient.TrendsUrl(ApiClient.TrendParams(None, None, None, Some(20), Some(1))) == "/trends?limit=20&page=1"
  {
    FirstPagePairs();
    FirstPageQueryString();
  }

  /** Cleared filters send neither search nor filters. */
  lemma ClearedParams()
    ensures LoadParams("", "all", "all") == ApiClient.TrendParams(None, None, None, Some(20), Some(1))
  {
    assert JsTrim("") == "";
  }

  /** With the filters cleared the dashboard asks for the first page of twenty. */
  lemma ClearedFiltersUrl()
    ensures ApiClient.TrendsUrl(LoadParams("", "all", "all")) == "/trends?limit=20&page=1"
  {
    ClearedParams();
    FirstPageUrl();
  }

  /** The client-side order of a fetched list: by content score or by creation instant,
      highest first; any other sort key leaves the list as fetched. */
  function Arranged(list: seq<Trend>, sortBy: string): seq<Trend> {
    if sortBy == "contentScore" then Sorting.SortDesc(list, ScoreKey)
    else if sortBy == "timeframe" then Sorting.SortDesc(list, RecencyKey)
    else list
  }

  /** The arranged list is a permutation of the fetched one, non-increasing in the
      chosen key, and keeps the fetched order among equal keys. */
  lemma ArrangedProperties(list: seq<Trend>, sortBy: string)
    ensures multiset(Arranged(list, sortBy)) == multiset(list)
    ensures sortBy == "contentScore" ==> Sorting.SortedDesc(Arranged(list, sortBy), ScoreKey)
    ensures sortBy == "contentScore" ==> Sorting.SameKeyOrder(Arranged(list, sortBy), list, ScoreKey)
    ensures sortBy == "timeframe" ==> Sorting.SortedDesc(Arranged(list, sortBy), RecencyKey)
    ensures sortBy == "timeframe" ==> Sorting.SameKeyOrder(Arranged(list, sortBy), list, RecencyKey)
    ensures sortBy != "contentScore" && sortBy != "timeframe" ==> Arranged(list, sortBy) == list
  {
    Sorting.SortDescCorrect(list, ScoreKey);
    Sorting.SortDescCorrect(list, RecencyKey);
  }

  /** The in-place sort of the fetched array. */
  method ArrangeFetched(list: seq<Trend>, sortBy: string) returns (r: seq<Trend>)
    ensures r == Arranged(list, sortBy)
  {
    var a := new Trend[|list|](k requires 0 <= k < |list| => list[k]);
    assert a[..] == list;
    if sortBy == "contentScore" {
      Sorting.SortDescInPlace(a, ScoreKey);
    } else if sortBy == "timeframe" {
      Sorting.SortDescInPlace(a, RecencyKey);
    }
    r := a[..];
  }

  /** A filter is in effect: a search term (even one of blanks) or a category or
      platform other than 'all'. */
  predicate FiltersActive(search: string, category: string, platform: string) {
    search != "" || category != "all" || platform != "all"
  }

  /** The part below the heading. */
  datatype Listing = Skeleton | NoTrends(hint: string, clearOffered: bool) | Grid(cards: seq<Trend>)

  datatype DashboardView = DashboardView(heading: string, banner: Option<string>, listing: Listing,
                                         stats: Option<Stats>)

  const FilteredHint := "Try adjusting your search criteria or filters."
  const EmptyHint := "No trending topics available at the moment."

  class Dashboard {
    var trends: seq<Trend>
    var loading: bool
    var error: Option<string>
    var searchTerm: string
    var selectedCategory: string
    var selectedPlatform: string
    var sortBy: string
    /** `None` once a successful stats answer carried a null `data`. */
    var stats: Option<Stats>
    /** A debounce timer is armed. */
    var reloadPending: bool
    /** The sort key of the render whose effect armed the timer. */
    var armedSortBy: string

    /** The only error the dashboard shows is the fixed load failure. */
    predicate Valid()
      reads this
    {
      error == None || error == Some(LoadFailed)
    }

    /** The initial state; the filter effect also runs on mount, so a timer is armed. */
    constructor ()
      ensures trends == [] && loading && error == None
      ensures searchTerm == "" && selectedCategory == "all" && selectedPlatform == "all"
      ensures sortBy == "contentScore" && stats == Some(InitialStats)
      ensures reloadPending && armedSortBy == "contentScore"
      ensures Valid()
    {
      trends := [];
      loading := true;
      error := None;
      searchTerm := "";
      selectedCategory := "all";
      selectedPlatform := "all";
      sortBy := "contentScore";
      stats := Some(InitialStats);
      reloadPending := true;
      armedSortBy := "contentScore";
    }

    /** The first half of `loadTrends`: loading on, error cleared, and the parameters
        built one conditional key at a time; the answer will be sorted by the sort key
        of this moment. */
    method BeginLoad() returns (params: ApiClient.TrendParams, key: string)
      modifies this
      ensures params == LoadParams(searchTerm, selectedCategory, selectedPlatform)
      ensures key == sortBy
      ensures loading && error == None
      ensures trends == old(trends) && stats == old(stats) && reloadPending == old(reloadPending)
      ensures armedSortBy == old(armedSortBy)
      ensures searchTerm == old(searchTerm) && sortBy == old(sortBy)
      ensures selectedCategory == old(selectedCategory) && selectedPlatform == old(selectedPlatform)
      ensures Valid()
    {
      loading := true;
      error := None;
      params := ApiClient.TrendParams(None, None, None, Some(PageSize), Some(1));
      if JsTrim(searchTerm) != "" {
        params := params.(search := Some(JsTrim(searchTerm)));
      }
      if selectedCategory != "all" {
        params := params.(category := Some(selectedCategory));
      }
      if selectedPlatform != "all" {
        params := params.(platform := Some(selectedPlatform));
      }
      key := sortBy;
    }

    /** The second half of `loadTrends`. A delivered page replaces the list, sorted by
        the key its request captured, whatever the sort key is now; a failure, or a
        null `data` whose `trends` cannot be read, sets the fixed message and keeps
        the list. Any answer is applied, also one that an earlier request produced
        after a later one began. */
    method CompleteLoad(outcome: Result<Option<TrendsPage>>, key: string)
      modifies this
      ensures outcome.Ok? && outcome.value.Some? ==>
                trends == Arranged(outcome.value.value.trends, key) && error == old(error)
      ensures !(outcome.Ok? && outcome.value.Some?) ==> trends == old(trends) && error == Some(LoadFailed)
      ensures !loading
      ensures stats == old(stats) && reloadPending == old(reloadPending) && armedSortBy == old(armedSortBy)
      ensures searchTerm == old(searchTerm) && sortBy == old(sortBy)
      ensures selectedCategory == old(selectedCategory) && selectedPlatform == old(selectedPlatform)
      ensures old(Valid()) ==> Valid()
    {
      if outcome.Ok? && outcome.value.Some? {
        var list := ArrangeFetched(outcome.value.value.trends, key);
        trends := list;
      } else {
        error := Some(LoadFailed);
      }
      loading := false;
    }

    /** `loadStats` answered: a success replaces the stats, a failure keeps them. */
    method CompleteStats(outcome: Result<Option<Stats>>)
      modifies this
      ensures outcome.Ok? ==> stats == outcome.value
      ensures outcome.Err? ==> stats == old(stats)
      ensures trends == old(trends) && loading == old(loading) && error == old(error)
      ensures reloadPending == old(reloadPending) && searchTerm == old(searchTerm) && sortBy == old(sortBy)
      ensures selectedCategory == old(selectedCategory) && selectedPlatform == old(selectedPlatform)
      ensures armedSortBy == old(armedSortBy)
    {
      if outcome.Ok? {
        stats := outcome.value;
      }
    }

    /** Typing in the search box; a changed value re-arms the debounce timer, whose
        closure captures the current sort key. */
    method SetSearchTerm(s: string)
      modifies this
      ensures searchTerm == s
      ensures reloadPending == (old(reloadPending) || s != old(searchTerm))
      ensures armedSortBy == if s != old(searchTerm) then sortBy else old(armedSortBy)
      ensures trends == old(trends) && loading == old(loading) && error == old(error) && stats == old(stats)
      ensures sortBy == old(sortBy)
      ensures selectedCategory == old(selectedCategory) && selectedPlatform == old(selectedPlatform)
    {
      if s != searchTerm {
        reloadPending := true;
        armedSortBy := sortBy;
      }
      searchTerm := s;
    }

    method SetCategory(c: string)
      modifies this
      ensures selectedCategory == c
      ensures reloadPending == (old(reloadPending) || c != old(selectedCategory))
      ensures armedSortBy == if c != old(selectedCategory) then sortBy else old(armedSortBy)
      ensures trends == old(trends) && loading == old(loading) && error == old(error) && stats == old(stats)
      ensures sortBy == old(sortBy) && searchTerm == old(searchTerm) && selectedPlatform == old(selectedPlatform)
    {
      if c != selectedCategory {
        reloadPending := true;
        armedSortBy := sortBy;
      }
      selectedCategory := c;
    }

    method SetPlatform(p: string)
      modifies this
      ensures selectedPlatform == p
      ensures reloadPending == (old(reloadPending) || p != old(selectedPlatform))
      ensures armedSortBy == if p != old(selectedPlatform) then sortBy else old(armedSortBy)
      ensures trends == old(trends) && loading == old(loading) && error == old(error) && stats == old(stats)
      ensures sortBy == old(sortBy) && searchTerm == old(searchTerm) && selectedCategory == old(selectedCategory)
    {
      if p != selectedPlatform {
        reloadPending := true;
        armedSortBy := sortBy;
      }
      selectedPlatform := p;
    }

    /** The sort key is not a dependency of the reload effect: changing it neither
        re-sorts the shown list, nor arms a reload, nor changes the key an armed
        timer will sort by. */
    method SetSortBy(s: string)
      modifies this
      ensures sortBy == s
      ensures reloadPending == old(reloadPending) && trends == old(trends)
      ensures armedSortBy == old(armedSortBy)
      ensures loading == old(loading) && error == old(error) && stats == old(stats)
      ensures searchTerm == old(searchTerm)
      ensures selectedCategory == old(selectedCategory) && selectedPlatform == old(selectedPlatform)
    {
      sortBy := s;
    }

    /** The armed timer fires and starts a load with the current filters, which every
        filter change since has re-armed with, and the sort key it captured. */
    method DebounceElapsed() returns (params: ApiClient.TrendParams, key: string)
      requires reloadPending
      modifies this
      ensures !reloadPending
      ensures params == LoadParams(searchTerm, selectedCategory, selectedPlatform)
      ensures key == old(armedSortBy) && armedSortBy == old(armedSortBy)
      ensures loading && error == None && trends == old(trends) && stats == old(stats)
      ensures searchTerm == old(searchTerm) && sortBy == old(sortBy)
      ensures selectedCategory == old(selectedCategory) && selectedPlatform == old(selectedPlatform)
    {
      reloadPending := false;
      params, key := BeginLoad();
      key := armedSortBy;
    }

    /** "Retry" on the error banner calls the `loadTrends` of the latest render, so
        it captures the sort key current at the click. */
    method Retry() returns (params: ApiClient.TrendParams, key: string)
      modifies this
      ensures params == LoadParams(searchTerm, selectedCategory, selectedPlatform)
      ensures key == sortBy && armedSortBy == old(armedSortBy)
      ensures loading && error == None && trends == old(trends) && stats == old(stats)
      ensures reloadPending == old(reloadPending)
      ensures searchTerm == old(searchTerm) && sortBy == old(sortBy)
      ensures selectedCategory == old(selectedCategory) && selectedPlatform == old(selectedPlatform)
    {
      params, key := BeginLoad();
    }

    /** "Clear Filters": the three setters in a row. */
    method ClearFilters()
      modifies this
      ensures searchTerm == "" && selectedCategory == "all" && selectedPlatform == "all"
      ensures !FiltersActive(searchTerm, selectedCategory, selectedPlatform)
      ensures reloadPending == (old(reloadPending) || FiltersActive(old(searchTerm), old(selectedCategory), old(selectedPlatform)))
      ensures armedSortBy == if FiltersActive(old(searchTerm), old(selectedCategory), old(selectedPlatform))
                             then sortBy else old(armedSortBy)
      ensures trends == old(trends) && loading == old(loading) && error == old(error) && stats == old(stats)
      ensures sortBy == old(sortBy)
    {
      SetSearchTerm("");
      SetCategory("all");
      SetPlatform("all");
    }

    /** What the dashboard renders: the skeleton while loading, else the empty block
        when the list is empty, else one card per trend; the banner whenever an error
        is set. */
    function View(): (v: DashboardView)
      reads this
      ensures v.listing.Skeleton? <==> loading
      ensures v.listing.NoTrends? <==> !loading && trends == []
      ensures v.listing.Grid? ==> v.listing.cards == trends && trends != []
      ensures v.listing.NoTrends? ==> (v.listing.clearOffered <==> FiltersActive(searchTerm, selectedCategory, selectedPlatform))
      ensures v.listing.NoTrends? ==> (v.listing.hint == FilteredHint <==> v.listing.clearOffered)
      ensures v.listing.NoTrends? && !v.listing.clearOffered ==> v.listing.hint == EmptyHint
      ensures Valid() ==> v.banner == None || v.banner == Some(LoadFailed)
      ensures v.banner == error && v.stats == stats
      ensures loading ==> v.heading == "Loading..."
      ensures !loading ==> v.heading == "Trending Now (" + IntToString(|trends|) + ")"
    {
      var heading := if loading then "Loading..." else "Trending Now (" + IntToString(|trends|) + ")";
      var active := FiltersActive(searchTerm, selectedCategory, selectedPlatform);
      var listing :=
        if loading then Skeleton
        else if trends == [] then NoTrends(if active then FilteredHint else EmptyHint, active)
        else Grid(trends);
      DashboardView(heading, error, listing, stats)
    }
  }

  /** A load that fails keeps the previous list on screen under the banner. */
  method FailedReloadKeepsList(fetched: TrendsPage, failure: string) returns (v: DashboardView)
    ensures v.banner == Some(LoadFailed)
    ensures fetched.trends != [] ==> v.listing == Grid(Arranged(fetched.trends, "contentScore"))
  {
    var d := new Dashboard();
    var first, key := d.BeginLoad();
    d.CompleteLoad(Ok(Some(fetched)), key);
    var again, key2 := d.Retry();
    d.CompleteLoad(Err(failure), key2);
    v := d.View();
  }

  /** Choosing another sort order while the mount load is in flight does not change
      how its answer is sorted; a timer armed before the change still sorts by the key
      it captured, and a later "Retry" sorts by the new one. */
  method SortChangeDuringLoad(fetched: TrendsPage) returns (v: DashboardView, armed: string, retried: string)
    ensures fetched.trends != [] ==> v.listing == Grid(Arranged(fetched.trends, "contentScore"))
    ensures armed == "contentScore"
    ensures retried == "timeframe"
  {
    var d := new Dashboard();
    var params, key := d.BeginLoad();
    d.SetSortBy("timeframe");
    d.CompleteLoad(Ok(Some(fetched)), key);
    v := d.View();
    var again;
    again, armed := d.DebounceElapsed();
    again, retried := d.Retry();
  }
}
