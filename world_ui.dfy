/** The world screen of `WorldViewModel.kt`: each result a use case emits is
    folded either into `handleError`, which posts nothing, or into one of the
    `handleScreenState*` handlers, which posts exactly one `ScreenState` to the
    screen's live value. A collected `Flow` is its sequence of emissions and
    `collect` is a loop over it. */
module WorldUi {
  import opened Base
  import opened DomainModel

  /** A use case's request state: still loading, or done with data. */
  datatype State<+T> = Loading | Success(data: T)

  /** The error side of a use case's `Either`. */
  datatype StateError = StateError(error: DomainError)

  /** What the world screen renders; the UI model types are left abstract. */
  datatype WorldStateScreen<+TrackerUI, +WorldChart, +CountryChart> =
    | SuccessCovidTracker(trackerData: TrackerUI)
    | SuccessWorldStatsBarCharts(worldBarData: seq<WorldChart>)
    | SuccessCountriesStatsBarCharts(countryBarData: seq<CountryChart>)
    | SuccessCountriesStatsLineCharts(countryLineData: seq<CountryChart>)

  /** The value the screen observes. */
  datatype ScreenState<+R> = Loading | Render(renderState: R)

  /** What one collected result posts: nothing for an error, one value otherwise. */
  function PostsOf<T, S>(result: Either<StateError, State<T>>, handle: State<T> -> S): seq<S>
  {
    match result
    case Left(_) => []
    case Right(state) => [handle(state)]
  }

  /** Everything a collect loop posts, in emission order. */
  function Posts<T, S>(results: seq<Either<StateError, State<T>>>, handle: State<T> -> S): (r: seq<S>)
    ensures |r| <= |results|
  {
    if results == [] then []
    else Posts(results[..|results| - 1], handle) + PostsOf(results[|results| - 1], handle)
  }

  /** The successful results, in emission order: an independent reading of
      what the collect loops post. */
  function Rights<T>(results: seq<Either<StateError, State<T>>>): (r: seq<State<T>>)
    ensures |r| <= |results|
    ensures forall state :: state in r ==> Right(state) in results
  {
    if results == [] then []
    else (if results[0].Right? then [results[0].right] else []) + Rights(results[1..])
  }

  /** Posting is per emission: the posts of a concatenation are the posts of
      each part, one after the other. */
  lemma {:induction false} PostsAppend<T, S>(a: seq<Either<StateError, State<T>>>, b: seq<Either<StateError, State<T>>>, handle: State<T> -> S)
    ensures Posts(a + b, handle) == Posts(a, handle) + Posts(b, handle)
    decreases |b|
  {
    if b == [] {
      assert a + b == a;
    } else {
      var n := |b| - 1;
      assert (a + b)[..|a + b| - 1] == a + b[..n];
      assert (a + b)[|a + b| - 1] == b[n];
      PostsAppend(a, b[..n], handle);
    }
  }

  /** The posts are exactly the successful results, each passed through the
      handler, in emission order; errors post nothing. */
  lemma {:induction false} PostsAreHandledRights<T, S>(results: seq<Either<StateError, State<T>>>, handle: State<T> -> S)
    ensures Posts(results, handle) == MapList(Rights(results), handle)
  {
    if results != [] {
      var head, tail := results[..1], results[1..];
      assert results == head + tail;
      PostsAppend(head, tail, handle);
      PostsAreHandledRights(tail, handle);
      assert Posts(head, handle) == PostsOf(results[0], handle) by {
        assert head[..0] == [];
      }
      MapListAppend(if results[0].Right? then [results[0].right] else [], Rights(tail), handle);
    }
  }

  /** A stream of errors only posts nothing. */
  lemma {:induction false} PostsOfErrorsOnly<T, S>(results: seq<Either<StateError, State<T>>>, handle: State<T> -> S)
    requires forall i :: 0 <= i < |results| ==> results[i].Left?
    ensures Posts(results, handle) == []
  {
    if results != [] {
      PostsOfErrorsOnly(results[..|results| - 1], handle);
    }
  }

  /** A stream of successful results posts exactly one value per emission. */
  lemma {:induction false} PostsOfSuccessesOnly<T, S>(results: seq<Either<StateError, State<T>>>, handle: State<T> -> S)
    requires forall i :: 0 <= i < |results| ==> results[i].Right?
    ensures |Posts(results, handle)| == |results|
    ensures forall i :: 0 <= i < |results| ==> Posts(results, handle)[i] == handle(results[i].right)
  {
    if results != [] {
      var n := |results| - 1;
      PostsOfSuccessesOnly(results[..n], handle);
    }
  }

  /** A stream that starts with a loading state posts the loading screen first. */
  lemma PostsStartWithLoading<T, S>(results: seq<Either<StateError, State<T>>>, handle: State<T> -> S)
    requires |results| > 0 && results[0] == Right(State.Loading)
    ensures |Posts(results, handle)| > 0 && Posts(results, handle)[0] == handle(State.Loading)
  {
  }

  /** The world view model. `toUI` and `toChartUI` are given, never looked into. */
  class WorldViewModel<CountryListStats, TrackerUI, WorldChart, CountryChart> {
    const toUI: CovidTracker -> TrackerUI
    const worldStatsToChartUI: WorldStats -> WorldChart
    const countryListStatsToChartUI: CountryListStats -> CountryChart

    /** The live value: `None` until the first post. */
    var screenState: Option<ScreenState<WorldStateScreen<TrackerUI, WorldChart, CountryChart>>>
    /** Every value posted so far, oldest first. */
    ghost var posted: seq<ScreenState<WorldStateScreen<TrackerUI, WorldChart, CountryChart>>>

    ghost predicate Valid()
      reads this
    {
      screenState == if posted == [] then None else Some(posted[|posted| - 1])
    }

    constructor (toUI: CovidTracker -> TrackerUI, worldStatsToChartUI: WorldStats -> WorldChart,
                 countryListStatsToChartUI: CountryListStats -> CountryChart)
      ensures Valid() && posted == [] && screenState == None
      ensures this.toUI == toUI && this.worldStatsToChartUI == worldStatsToChartUI
      ensures this.countryListStatsToChartUI == countryListStatsToChartUI
    {
      this.toUI := toUI;
      this.worldStatsToChartUI := worldStatsToChartUI;
      this.countryListStatsToChartUI := countryListStatsToChartUI;
      screenState := None;
      posted := [];
    }

    /** `_screenState.postValue`: the new value replaces the live one. */
    method PostValue(value: ScreenState<WorldStateScreen<TrackerUI, WorldChart, CountryChart>>)
      requires Valid()
      modifies this
      ensures Valid() && screenState == Some(value)
      ensures posted == old(posted) + [value]
    {
      screenState := Some(value);
      posted := posted + [value];
    }

    // ------------------------------------------------- what each handler posts

    /** The choice of `handleScreenStateCovidTracker`. */
    function CovidTrackerScreenState(state: State<CovidTracker>): (r: ScreenState<WorldStateScreen<TrackerUI, WorldChart, CountryChart>>)
      ensures state.Loading? ==> r == ScreenState.Loading
      ensures state.Success? ==> r == ScreenState.Render(SuccessCovidTracker(toUI(state.data)))
    {
      match state
      case Loading => ScreenState.Loading
      case Success(data) => ScreenState.Render(SuccessCovidTracker(toUI(data)))
    }

    /** The choice of `handleScreenStateWorldStats`: one bar chart per world row, in order. */
    function WorldStatsScreenState(state: State<seq<WorldStats>>): (r: ScreenState<WorldStateScreen<TrackerUI, WorldChart, CountryChart>>)
      ensures state.Loading? ==> r == ScreenState.Loading
      ensures state.Success? ==> r.Render? && r.renderState.SuccessWorldStatsBarCharts?
      ensures state.Success? ==> |r.renderState.worldBarData| == |state.data|
      ensures state.Success? ==> forall i :: 0 <= i < |state.data| ==>
                r.renderState.worldBarData[i] == worldStatsToChartUI(state.data[i])
    {
      match state
      case Loading => ScreenState.Loading
      case Success(data) => ScreenState.Render(SuccessWorldStatsBarCharts(MapList(data, worldStatsToChartUI)))
    }

    /** The choice of `handleScreenStateCountriesBarStats`: one bar chart per country, in order. */
    function CountriesBarScreenState(state: State<seq<CountryListStats>>): (r: ScreenState<WorldStateScreen<TrackerUI, WorldChart, CountryChart>>)
      ensures state.Loading? ==> r == ScreenState.Loading
      ensures state.Success? ==> r.Render? && r.renderState.SuccessCountriesStatsBarCharts?
      ensures state.Success? ==> |r.renderState.countryBarData| == |state.data|
      ensures state.Success? ==> forall i :: 0 <= i < |state.data| ==>
                r.renderState.countryBarData[i] == countryListStatsToChartUI(state.data[i])
    {
      match state
      case Loading => ScreenState.Loading
      case Success(data) => ScreenState.Render(SuccessCountriesStatsBarCharts(MapList(data, countryListStatsToChartUI)))
    }

    /** The choice of `handleScreenStateCountriesLineStats`: one line chart per country, in order. */
    function CountriesLineScreenState(state: State<seq<CountryListStats>>): (r: ScreenState<WorldStateScreen<TrackerUI, WorldChart, CountryChart>>)
      ensures state.Loading? ==> r == ScreenState.Loading
      ensures state.Success? ==> r.Render? && r.renderState.SuccessCountriesStatsLineCharts?
      ensures state.Success? ==> |r.renderState.countryLineData| == |state.data|
      ensures state.Success? ==> forall i :: 0 <= i < |state.data| ==>
                r.renderState.countryLineData[i] == countryListStatsToChartUI(state.data[i])
    {
      match state
      case Loading => ScreenState.Loading
      case Success(data) => ScreenState.Render(SuccessCountriesStatsLineCharts(MapList(data, countryListStatsToChartUI)))
    }

    // ------------------------------------------------------------- the handlers

    method HandleScreenStateCovidTracker(state: State<CovidTracker>)
      requires Valid()
      modifies this
      ensures Valid() && posted == old(posted) + [CovidTrackerScreenState(state)]
    {
      match state {
        case Success(data) => PostValue(ScreenState.Render(SuccessCovidTracker(toUI(data))));
        case Loading => PostValue(ScreenState.Loading);
      }
    }

    method HandleScreenStateWorldStats(state: State<seq<WorldStats>>)
      requires Valid()
      modifies this
      ensures Valid() && posted == old(posted) + [WorldStatsScreenState(state)]
    {
      match state {
        case Success(data) =>
          PostValue(ScreenState.Render(SuccessWorldStatsBarCharts(MapList(data, worldStatsToChartUI))));
        case Loading => PostValue(ScreenState.Loading);
      }
    }

    method HandleScreenStateCountriesBarStats(state: State<seq<CountryListStats>>)
      requires Valid()
      modifies this
      ensures Valid() && posted == old(posted) + [CountriesBarScreenState(state)]
    {
      match state {
        case Success(data) =>
          PostValue(ScreenState.Render(SuccessCountriesStatsBarCharts(MapList(data, countryListStatsToChartUI))));
        case Loading => PostValue(ScreenState.Loading);
      }
    }

    method HandleScreenStateCountriesLineStats(state: State<seq<CountryListStats>>)
      requires Valid()
      modifies this
      ensures Valid() && posted == old(posted) + [CountriesLineScreenState(state)]
    {
      match state {
        case Success(data) =>
          PostValue(ScreenState.Render(SuccessCountriesStatsLineCharts(MapList(data, countryListStatsToChartUI))));
        case Loading => PostValue(ScreenState.Loading);
      }
    }

    /** `handleError` does nothing: the live value and the history stay as they are. */
    method HandleError(state: StateError)
      ensures unchanged(this)
    {
    }

    // ------------------------------------------------------- the collect loops

    /** `getCovidTrackerLast`: `emitted` is what the use case emits for the requested date. */
    method GetCovidTrackerLast(emitted: seq<Either<StateError, State<CovidTracker>>>)
      requires Valid()
      modifies this
      ensures Valid() && posted == old(posted) + Posts(emitted, CovidTrackerScreenState)
    {
      var i := 0;
      while i < |emitted|
        invariant 0 <= i <= |emitted| && Valid()
        invariant posted == old(posted) + Posts(emitted[..i], CovidTrackerScreenState)
      {
        assert emitted[..i + 1][..i] == emitted[..i];
        match emitted[i] {
          case Left(error) => HandleError(error);
          case Right(state) => HandleScreenStateCovidTracker(state);
        }
        i := i + 1;
      }
      assert emitted[..i] == emitted;
    }

    /** `getWorldAllStats`. */
    method GetWorldAllStats(emitted: seq<Either<StateError, State<seq<WorldStats>>>>)
      requires Valid()
      modifies this
      ensures Valid() && posted == old(posted) + Posts(emitted, WorldStatsScreenState)
    {
      var i := 0;
      while i < |emitted|
        invariant 0 <= i <= |emitted| && Valid()
        invariant posted == old(posted) + Posts(emitted[..i], WorldStatsScreenState)
      {
        assert emitted[..i + 1][..i] == emitted[..i];
        match emitted[i] {
          case Left(error) => HandleError(error);
          case Right(state) => HandleScreenStateWorldStats(state);
        }
        i := i + 1;
      }
      assert emitted[..i] == emitted;
    }

    /** `getCountriesStatsOrderByConfirmed`. */
    method GetCountriesStatsOrderByConfirmed(emitted: seq<Either<StateError, State<seq<CountryListStats>>>>)
      requires Valid()
      modifies this
      ensures Valid() && posted == old(posted) + Posts(emitted, CountriesBarScreenState)
    {
      var i := 0;
      while i < |emitted|
        invariant 0 <= i <= |emitted| && Valid()
        invariant posted == old(posted) + Posts(emitted[..i], CountriesBarScreenState)
      {
        assert emitted[..i + 1][..i] == emitted[..i];
        match emitted[i] {
          case Left(error) => HandleError(error);
          case Right(state) => HandleScreenStateCountriesBarStats(state);
        }
        i := i + 1;
      }
      assert emitted[..i] == emitted;
    }

    /** `getCountriesAndStatsWithMostConfirmed`. */
    method GetCountriesAndStatsWithMostConfirmed(emitted: seq<Either<StateError, State<seq<CountryListStats>>>>)
      requires Valid()
      modifies this
      ensures Valid() && posted == old(posted) + Posts(emitted, CountriesLineScreenState)
    {
      var i := 0;
      while i < |emitted|
        invariant 0 <= i <= |emitted| && Valid()
        invariant posted == old(posted) + Posts(emitted[..i], CountriesLineScreenState)
      {
        assert emitted[..i + 1][..i] == emitted[..i];
        match emitted[i] {
          case Left(error) => HandleError(error);
          case Right(state) => HandleScreenStateCountriesLineStats(state);
        }
        i := i + 1;
      }
      assert emitted[..i] == emitted;
    }

    // ------------------------------------------------------------ consequences

    /** A loading state followed by a snapshot posts `Loading` and then the
        rendered snapshot, in that order. */
    lemma LoadingThenSuccessPostsLoadingThenRender(tracker: CovidTracker)
      ensures Posts([Right(State.Loading), Right(State.Success(tracker))], CovidTrackerScreenState)
              == [ScreenState.Loading, ScreenState.Render(SuccessCovidTracker(toUI(tracker)))]
    {
    }
  }
}
