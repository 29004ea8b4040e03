/**
 * The music panel component: its seven pieces of state as the fields of a
 * class, and its event handlers as methods that assign those fields in the
 * order the component's setter calls run. A handler's awaited service request
 * splits it into a Begin method (up to the await) and a Complete method (the
 * try, catch and finally blocks after it); the whole handler runs both.
 */
module PanelController {
  import opened Options
  import opened Catalog
  import opened PanelSpec
  import Text

  class Panel {
    var isLoading: bool
    var error: Option<string>
    var recommendations: RecommendationSet
    var searchQuery: string
    var searchResults: seq<Track>
    var activeTab: Tab
    var isSearching: bool

    /** The panel's state as a value. */
    function State(): PanelState
      reads this
    {
      PanelState(isLoading, error, recommendations, searchQuery, searchResults, activeTab, isSearching)
    }

    /** Mounting: not loading, no error, nothing found yet, on the recommendations tab. */
    constructor ()
      ensures State() == Initial()
      ensures activeTab == RecommendationsTab && error == None && !isLoading && !isSearching
    {
      isLoading := false;
      error := None;
      recommendations := RecommendationSet([], []);
      searchQuery := "";
      searchResults := [];
      activeTab := RecommendationsTab;
      isSearching := false;
    }

    /** A click on one of the three tab buttons. */
    method SetTab(tab: Tab)
      modifies this
      ensures activeTab == tab
      ensures State() == old(State()).(activeTab := tab)
    {
      activeTab := tab;
    }

    /** Typing in the search box. */
    method SetSearchQuery(query: string)
      modifies this
      ensures searchQuery == query
      ensures State() == old(State()).(searchQuery := query)
    {
      searchQuery := query;
    }

    /**
     * Loading recommendations up to the awaited fetch. `fetch` tells whether the
     * fetch is issued: without a configured service only the error changes.
     */
    method BeginLoad(configured: bool) returns (fetch: bool)
      modifies this
      ensures fetch == configured
      ensures !configured ==> State() == old(State()).(error := Some(NotConfiguredMessage))
      ensures configured ==> State() == old(State()).(isLoading := true, error := None)
      ensures State() == StartLoad(old(State()), configured)
    {
      if !configured {
        error := Some(NotConfiguredMessage);
        return false;
      }
      isLoading := true;
      error := None;
      fetch := true;
    }

    /** Loading recommendations after the fetch ends with `outcome`. */
    method CompleteLoad<R>(outcome: Outcome<RawRecommendations<R>>, emotion: string, convert: (R, string) -> Track)
      modifies this
      ensures !isLoading
      ensures outcome.Ok? ==>
        && |recommendations.tracks| == |outcome.payload.tracks|
        && (forall i :: 0 <= i < |outcome.payload.tracks| ==>
              recommendations.tracks[i] == convert(outcome.payload.tracks[i], emotion))
        && recommendations.playlists == outcome.payload.playlists
        && error == old(error)
      ensures outcome.Err? ==> recommendations == old(recommendations) && error == Some(LoadFailedMessage)
      ensures searchQuery == old(searchQuery) && searchResults == old(searchResults)
      ensures activeTab == old(activeTab) && isSearching == old(isSearching)
      ensures State() == FinishLoad(old(State()), outcome, emotion, convert)
    {
      match outcome {
        case Ok(raw) =>
          var tracks := ConvertAll(raw.tracks, emotion, convert);
          recommendations := RecommendationSet(tracks, raw.playlists);
        case Err =>
          error := Some(LoadFailedMessage);
      }
      isLoading := false;
    }

    /**
     * The whole recommendation loader for the current `emotion`, the service
     * answering with `outcome` if it is asked. Returns whether it was asked.
     */
    method LoadEmotionRecommendations<R>(configured: bool, outcome: Outcome<RawRecommendations<R>>,
                                         emotion: string, convert: (R, string) -> Track)
      returns (fetched: bool)
      modifies this
      ensures fetched == configured
      ensures !configured ==> State() == old(State()).(error := Some(NotConfiguredMessage))
      ensures configured && outcome.Ok? ==>
        State() == old(State()).(isLoading := false, error := None,
          recommendations := RecommendationSet(ConvertAll(outcome.payload.tracks, emotion, convert),
                                               outcome.payload.playlists))
      ensures configured && outcome.Err? ==>
        State() == old(State()).(isLoading := false, error := Some(LoadFailedMessage))
      ensures State() == Load(old(State()), configured, outcome, emotion, convert)
    {
      fetched := BeginLoad(configured);
      if fetched {
        CompleteLoad(outcome, emotion, convert);
      }
    }

    /**
     * Searching up to the awaited request. `request` is the query sent to the
     * service (untrimmed), or None when the query is blank and nothing happens.
     */
    method BeginSearch() returns (request: Option<string>)
      modifies this
      ensures request == if Text.IsBlank(old(searchQuery)) then None else Some(old(searchQuery))
      ensures request.None? ==> State() == old(State())
      ensures request.Some? ==> State() == old(State()).(isSearching := true, error := None)
      ensures State() == StartSearch(old(State()))
    {
      Text.TrimEmptyIffBlank(searchQuery);
      if Text.Trim(searchQuery) == [] {
        return None;
      }
      isSearching := true;
      error := None;
      request := Some(searchQuery);
    }

    /** Searching after the request ends with `outcome`. */
    method CompleteSearch(outcome: Outcome<seq<Track>>)
      modifies this
      ensures !isSearching
      ensures outcome.Ok? ==> searchResults == outcome.payload && activeTab == SearchTab && error == old(error)
      ensures outcome.Err? ==>
        searchResults == old(searchResults) && activeTab == old(activeTab) && error == Some(SearchFailedMessage)
      ensures recommendations == old(recommendations) && isLoading == old(isLoading)
      ensures searchQuery == old(searchQuery)
      ensures State() == FinishSearch(old(State()), outcome)
    {
      match outcome {
        case Ok(results) =>
          searchResults := results;
          activeTab := SearchTab;
        case Err =>
          error := Some(SearchFailedMessage);
      }
      isSearching := false;
    }

    /** The whole search handler, the service answering with `outcome` if it is asked. */
    method HandleSearch(outcome: Outcome<seq<Track>>) returns (request: Option<string>)
      modifies this
      ensures request == if Text.IsBlank(old(searchQuery)) then None else Some(old(searchQuery))
      ensures request.None? ==> State() == old(State())
      ensures request.Some? && outcome.Ok? ==>
        State() == old(State()).(searchResults := outcome.payload, activeTab := SearchTab,
                                 error := None, isSearching := false)
      ensures request.Some? && outcome.Err? ==>
        State() == old(State()).(error := Some(SearchFailedMessage), isSearching := false)
      ensures State() == Search(old(State()), outcome)
    {
      request := BeginSearch();
      if request.Some? {
        CompleteSearch(outcome);
      }
    }
  }
}
