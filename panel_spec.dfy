/**
 * The panel's state as a value, the effect of each event handler on it, and
 * properties of every sequence of handler runs. The music service is not called:
 * whether it is configured and what a request answers are parameters, and the
 * service's track conversion is the function value `convert`. Each handler's
 * awaited request is treated as one atomic step.
 *
 * StartLoad, FinishLoad, Load, StartSearch, FinishSearch and Search are the
 * abstract effect of the methods of `PanelController.Panel` of the same
 * handlers; each method's contract ties its new State() to one of them.
 */
module PanelSpec {
  import opened Options
  import opened Catalog
  import Text

  datatype Tab = RecommendationsTab | PlaylistsTab | SearchTab

  /** What the recommendations and playlists tabs show. */
  datatype RecommendationSet = RecommendationSet(tracks: seq<Track>, playlists: seq<Playlist>)

  /** The recommendation service's answer before its tracks are converted. */
  datatype RawRecommendations<R> = RawRecommendations(tracks: seq<R>, playlists: seq<Playlist>)

  /**
   * How the `try` block around an awaited service request ends: `Ok` with the
   * request's value when nothing in the block throws, `Err` when the block throws,
   * in the request itself or afterwards (for the loader, while converting the
   * answer's tracks, e.g. an answer without `tracks` or a conversion that throws).
   */
  datatype Outcome<T> = Ok(payload: T) | Err

  const NotConfiguredMessage: string := "JioSaavn integration not configured properly."
  const LoadFailedMessage: string := "Unable to load JioSaavn recommendations. Please try again later."
  const SearchFailedMessage: string := "Search failed. Please try again."

  datatype PanelState = PanelState(
    isLoading: bool,
    error: Option<string>,
    recommendations: RecommendationSet,
    searchQuery: string,
    searchResults: seq<Track>,
    activeTab: Tab,
    isSearching: bool)

  /** The state the panel is mounted with. */
  function Initial(): PanelState {
    PanelState(false, None, RecommendationSet([], []), "", [], RecommendationsTab, false)
  }

  /** The service's raw tracks converted one by one for the current emotion, in order. */
  function ConvertAll<R>(raw: seq<R>, emotion: string, convert: (R, string) -> Track): (tracks: seq<Track>)
    ensures |tracks| == |raw|
    ensures forall i :: 0 <= i < |raw| ==> tracks[i] == convert(raw[i], emotion)
  {
    seq(|raw|, i requires 0 <= i < |raw| => convert(raw[i], emotion))
  }

  /**
   * The first, synchronous part of loading recommendations: without a configured
   * service only the error is set and nothing is fetched; otherwise loading
   * starts and the previous error is cleared.
   */
  function StartLoad(s: PanelState, configured: bool): PanelState {
    if !configured then s.(error := Some(NotConfiguredMessage))
    else s.(isLoading := true, error := None)
  }

  /** The part after the awaited fetch: the try, catch and finally blocks. */
  function FinishLoad<R>(s: PanelState, outcome: Outcome<RawRecommendations<R>>, emotion: string,
                         convert: (R, string) -> Track): PanelState
  {
    match outcome
    case Ok(raw) =>
      s.(recommendations := RecommendationSet(ConvertAll(raw.tracks, emotion, convert), raw.playlists),
         isLoading := false)
    case Err =>
      s.(error := Some(LoadFailedMessage), isLoading := false)
  }

  /** One whole run of the recommendation loader. */
  function Load<R>(s: PanelState, configured: bool, outcome: Outcome<RawRecommendations<R>>,
                   emotion: string, convert: (R, string) -> Track): PanelState
  {
    if configured then FinishLoad(StartLoad(s, true), outcome, emotion, convert) else StartLoad(s, false)
  }

  /**
   * The first part of a search: nothing at all for a blank query (one whose
   * `trim()` is empty, see `Text.TrimEmptyIffBlank`), otherwise searching starts
   * and the error is cleared.
   */
  function StartSearch(s: PanelState): PanelState {
    if Text.IsBlank(s.searchQuery) then s else s.(isSearching := true, error := None)
  }

  /** The part after the awaited search: the try, catch and finally blocks. */
  function FinishSearch(s: PanelState, outcome: Outcome<seq<Track>>): PanelState {
    match outcome
    case Ok(results) => s.(searchResults := results, activeTab := SearchTab, isSearching := false)
    case Err => s.(error := Some(SearchFailedMessage), isSearching := false)
  }

  /** One whole run of the search handler. */
  function Search(s: PanelState, outcome: Outcome<seq<Track>>): PanelState {
    if Text.IsBlank(s.searchQuery) then s else FinishSearch(StartSearch(s), outcome)
  }

  /** The events the panel reacts to. */
  datatype Event<R> =
    | TabClicked(tab: Tab)
    | QueryEdited(query: string)
    | LoadRequested(configured: bool, recs: Outcome<RawRecommendations<R>>, emotion: string)
    | SearchSubmitted(results: Outcome<seq<Track>>)

  function Step<R>(s: PanelState, e: Event<R>, convert: (R, string) -> Track): PanelState {
    match e
    case TabClicked(tab) => s.(activeTab := tab)
    case QueryEdited(query) => s.(searchQuery := query)
    case LoadRequested(configured, recs, emotion) => Load(s, configured, recs, emotion, convert)
    case SearchSubmitted(results) => Search(s, results)
  }

  /** The state after handling `events` in order. */
  function Run<R>(s: PanelState, events: seq<Event<R>>, convert: (R, string) -> Track): PanelState
    decreases |events|
  {
    if events == [] then s else Run(Step(s, events[0], convert), events[1..], convert)
  }

  /** Only a tab click and a search that succeeds can move the active tab. */
  predicate MayChangeTab<R>(e: Event<R>) {
    e.TabClicked? || (e.SearchSubmitted? && e.results.Ok?)
  }

  /** No request is in flight between handler runs. */
  predicate Idle(s: PanelState) {
    !s.isLoading && !s.isSearching
  }

  /** The error shown is absent or one of the panel's three fixed messages. */
  predicate KnownError(s: PanelState) {
    s.error == None || s.error == Some(NotConfiguredMessage)
    || s.error == Some(LoadFailedMessage) || s.error == Some(SearchFailedMessage)
  }

  lemma StepKeepsKnownError<R>(s: PanelState, e: Event<R>, convert: (R, string) -> Track)
    requires KnownError(s)
    ensures KnownError(Step(s, e, convert))
  {
    match e {
      case TabClicked(_) =>
      case QueryEdited(_) =>
      case LoadRequested(configured, recs, emotion) =>
        if configured {
          assert KnownError(StartLoad(s, true));
        }
      case SearchSubmitted(results) =>
        if !Text.IsBlank(s.searchQuery) {
          assert KnownError(StartSearch(s));
        }
    }
  }

  lemma StepKeepsIdle<R>(s: PanelState, e: Event<R>, convert: (R, string) -> Track)
    requires Idle(s)
    ensures Idle(Step(s, e, convert))
  {
    match e {
      case TabClicked(_) =>
      case QueryEdited(_) =>
      case LoadRequested(configured, recs, emotion) =>
      case SearchSubmitted(results) =>
        if !Text.IsBlank(s.searchQuery) {
          assert !StartSearch(s).isLoading;
        }
    }
  }

  /** The active tab moves only on a tab click or a successful search. */
  lemma {:induction false} TabChangesOnlyOnClickOrSearch<R>(s: PanelState, events: seq<Event<R>>,
                                                            convert: (R, string) -> Track)
    requires forall i :: 0 <= i < |events| ==> !MayChangeTab(events[i])
    ensures Run(s, events, convert).activeTab == s.activeTab
    decreases |events|
  {
    if events != [] {
      TabChangesOnlyOnClickOrSearch(Step(s, events[0], convert), events[1..], convert);
    }
  }

  /** The tab of the last tab click stays active until the next click or successful search. */
  lemma {:induction false} LastClickDecidesTab<R>(s: PanelState, tab: Tab, events: seq<Event<R>>,
                                                  convert: (R, string) -> Track)
    requires forall i :: 0 <= i < |events| ==> !MayChangeTab(events[i])
    ensures Run(s, [TabClicked(tab)] + events, convert).activeTab == tab
  {
    assert ([TabClicked(tab)] + events)[1..] == events;
    TabChangesOnlyOnClickOrSearch(s.(activeTab := tab), events, convert);
  }

  /**
   * Every request settles (an `Outcome` has no pending case) and every handler
   * clears its flag in a finally block, so the panel is idle between runs.
   */
  lemma {:induction false} RunStaysIdle<R>(s: PanelState, events: seq<Event<R>>, convert: (R, string) -> Track)
    requires Idle(s)
    ensures Idle(Run(s, events, convert))
    decreases |events|
  {
    if events != [] {
      StepKeepsIdle(s, events[0], convert);
      RunStaysIdle(Step(s, events[0], convert), events[1..], convert);
    }
  }

  /** The error is only ever cleared or replaced by one of the fixed messages. */
  lemma {:induction false} RunKeepsKnownError<R>(s: PanelState, events: seq<Event<R>>, convert: (R, string) -> Track)
    requires KnownError(s)
    ensures KnownError(Run(s, events, convert))
    decreases |events|
  {
    if events != [] {
      StepKeepsKnownError(s, events[0], convert);
      RunKeepsKnownError(Step(s, events[0], convert), events[1..], convert);
    }
  }

  /** Loading recommendations never touches the query, the search results, the searching flag or the tab. */
  lemma {:induction false} LoadsLeaveSearchAlone<R>(s: PanelState, events: seq<Event<R>>, convert: (R, string) -> Track)
    requires forall i :: 0 <= i < |events| ==> events[i].LoadRequested?
    ensures var t := Run(s, events, convert);
      t.searchQuery == s.searchQuery && t.searchResults == s.searchResults
      && t.isSearching == s.isSearching && t.activeTab == s.activeTab
    decreases |events|
  {
    if events != [] {
      LoadsLeaveSearchAlone(Step(s, events[0], convert), events[1..], convert);
    }
  }

  /** Without a recommendation load, the recommendations and the loading flag stay as they were. */
  lemma {:induction false} OnlyLoadsChangeRecommendations<R>(s: PanelState, events: seq<Event<R>>,
                                                             convert: (R, string) -> Track)
    requires forall i :: 0 <= i < |events| ==> !events[i].LoadRequested?
    ensures Run(s, events, convert).recommendations == s.recommendations
    ensures Run(s, events, convert).isLoading == s.isLoading
    decreases |events|
  {
    if events != [] {
      var next := Step(s, events[0], convert);
      assert next.recommendations == s.recommendations && next.isLoading == s.isLoading by {
        assert !events[0].LoadRequested?;
      }
      OnlyLoadsChangeRecommendations(next, events[1..], convert);
    }
  }

  /** Blank queries never reach the service, so a run of them changes nothing. */
  lemma {:induction false} BlankSearchesChangeNothing<R>(s: PanelState, events: seq<Event<R>>,
                                                         convert: (R, string) -> Track)
    requires Text.IsBlank(s.searchQuery)
    requires forall i :: 0 <= i < |events| ==> events[i].SearchSubmitted?
    ensures Run(s, events, convert) == s
    decreases |events|
  {
    if events != [] {
      assert Step(s, events[0], convert) == s by {
        assert events[0].SearchSubmitted?;
      }
      BlankSearchesChangeNothing(s, events[1..], convert);
    }
  }
}
