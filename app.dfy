/**
 * The application shell: a dashboard view and a generator view, switched by
 * selecting a trend and by going back.
 */
module App {
  import opened Wrappers
  import opened Models

  /** What the shell renders. */
  datatype Screen = DashboardScreen | GeneratorScreen(trend: Option<Trend>)

  class AppState {
    var selectedTrend: Option<Trend>
    var currentView: string

    /** The view is one of the two, and it is the generator exactly when a trend is selected. */
    predicate Valid()
      reads this
    {
      && (currentView == "dashboard" || currentView == "generator")
      && (currentView == "generator" <==> selectedTrend.Some?)
    }

    constructor ()
      ensures currentView == "dashboard" && selectedTrend == None
      ensures Valid()
    {
      selectedTrend := None;
      currentView := "dashboard";
    }

    /** `handleTrendSelect`. */
    method HandleTrendSelect(trend: Trend)
      modifies this
      ensures selectedTrend == Some(trend) && currentView == "generator"
      ensures Valid()
    {
      selectedTrend := Some(trend);
      currentView := "generator";
    }

    /** `handleBack`. */
    method HandleBack()
      modifies this
      ensures currentView == "dashboard" && selectedTrend == None
      ensures Valid()
    {
      currentView := "dashboard";
      selectedTrend := None;
    }

    /** The element of the root route. */
    function Rendered(): (s: Screen)
      reads this
      ensures s.DashboardScreen? <==> currentView == "dashboard"
      ensures s.GeneratorScreen? ==> s.trend == selectedTrend
      ensures Valid() && s.GeneratorScreen? ==> s.trend.Some?
    {
      if currentView == "dashboard" then DashboardScreen else GeneratorScreen(selectedTrend)
    }
  }

  /** Selecting a trend and going back returns to the initial state. */
  method SelectThenBack(trend: Trend) returns (s: Screen)
    ensures s == DashboardScreen
  {
    var app := new AppState();
    app.HandleTrendSelect(trend);
    var shown := app.Rendered();
    assert shown == GeneratorScreen(Some(trend));
    app.HandleBack();
    s := app.Rendered();
  }
}
