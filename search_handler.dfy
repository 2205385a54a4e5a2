/** The client-side search (src/components/search-handler.tsx): when the
    page's `q` parameter changes, the query is parsed and analysed, and the
    component's two state variables, `searchResults` and `isSearchLoading`,
    decide whether a skeleton, the search results or the trending list
    (the component's children) is shown. */
module SearchHandler {
  import opened Common
  import opened Query
  import opened Actions
  import opened Text

  const AnalysisFailedTitle := "Analysis Failed"
  const UnknownErrorMessage := "An unknown error occurred."

  /** What the component renders. */
  datatype View = Skeleton | SearchCards(results: seq<SongAnalysisResult>) | Children

  /** The render rule: loading first, then any non-null results (an empty
      list included, which hides the children), then the children. */
  function RenderSelection(loading: bool, results: Option<seq<SongAnalysisResult>>): View {
    if loading then Skeleton
    else if results.Some? then SearchCards(results.value)
    else Children
  }

  /** The toast shown when the analysis throws: the `Error`'s message, or a
      fixed text for any other thrown value. */
  function FailureToast(e: Thrown): (t: Toast)
    ensures t.destructive && t.title == AnalysisFailedTitle
    ensures e.ErrorValue? ==> t.description == e.message
    ensures e.NonErrorValue? ==> t.description == UnknownErrorMessage
  {
    Toast(true, AnalysisFailedTitle, if e.ErrorValue? then e.message else UnknownErrorMessage)
  }

  /** The three views are told apart by the two state variables alone:
      the skeleton exactly while loading, the children exactly when idle with
      null results, and otherwise the cards of the results held. */
  lemma RenderPriority(loading: bool, results: Option<seq<SongAnalysisResult>>)
    ensures RenderSelection(loading, results) == Skeleton <==> loading
    ensures RenderSelection(loading, results) == Children <==> !loading && results == None
    ensures RenderSelection(loading, results).SearchCards? ==> results == Some(RenderSelection(loading, results).results)
  {
  }

  /** `if (query)`: a present, non-empty `q` parameter starts a search. */
  predicate Truthy(q: Option<string>) {
    q.Some? && q.value != ""
  }

  /** The results a search for `query` settles with: the one analysed song, or
      an empty list when the analysis throws. */
  function SearchResults(query: string, clientId: Option<string>, flows: FlowOutcomes): seq<SongAnalysisResult> {
    match AnalyzeSong(Parse(query), false, clientId, flows).result
    case Success(r) => [r]
    case Failure(_) => []
  }

  /** The toasts a search for `query` adds: one on failure, none on success. */
  function SearchToasts(query: string, clientId: Option<string>, flows: FlowOutcomes): seq<Toast> {
    match AnalyzeSong(Parse(query), false, clientId, flows).result
    case Success(_) => []
    case Failure(e) => [FailureToast(e)]
  }

  /** A search adds a toast exactly when the analysis fails, and that toast
      always carries the action's own message: every failure of the action is
      an `Error`, so the unknown-error text of the non-`Error` branch never
      appears. */
  lemma FailedSearchToast(query: string, clientId: Option<string>, flows: FlowOutcomes)
    ensures SearchToasts(query, clientId, flows) == [] <==>
      AnalyzeSong(Parse(query), false, clientId, flows).result.Success?
    ensures var result := AnalyzeSong(Parse(query), false, clientId, flows).result;
      result.Failure? ==>
        && SearchToasts(query, clientId, flows) == [Toast(true, AnalysisFailedTitle, result.error.message)]
        && result.error.message != UnknownErrorMessage
  {
    var result := AnalyzeSong(Parse(query), false, clientId, flows).result;
    if result.Failure? {
      FailureMessages(Parse(query), false, clientId, flows);
      UnknownMessageIsNoActionMessage();
    }
  }

  /** The unknown-error text is none of the action's failure messages. */
  lemma UnknownMessageIsNoActionMessage()
    ensures UnknownErrorMessage !in {InvalidInput, NotConfigured, GenericFailure}
    ensures !Includes(UnknownErrorMessage, "Spotify")
  {
    assert |UnknownErrorMessage| == 26;
    assert |InvalidInput| == 45;
    assert 'S' !in UnknownErrorMessage;
    MissingFirstChar(UnknownErrorMessage, "Spotify");
  }

  /** A settled search shows its results, never the trending list: one card
      on success and none on failure. */
  lemma SettledSearchShowsResults(query: string, clientId: Option<string>, flows: FlowOutcomes)
    ensures RenderSelection(false, Some(SearchResults(query, clientId, flows))).SearchCards?
    ensures |SearchResults(query, clientId, flows)| == 1 <==>
      AnalyzeSong(Parse(query), false, clientId, flows).result.Success?
    ensures |SearchResults(query, clientId, flows)| <= 1
  {
  }

  /** A query with no hyphen has an empty title, so the server action rejects
      it with the invalid-input error before calling anything, and the
      search settles with no results. */
  lemma HyphenlessQueryFails(query: string, clientId: Option<string>, flows: FlowOutcomes)
    requires '-' !in query
    ensures AnalyzeSong(Parse(query), false, clientId, flows) == Run(Failure(ErrorValue(InvalidInput)), [])
    ensures SearchResults(query, clientId, flows) == []
  {
    ParseArtistBeforeFirstHyphen(query);
  }

  /** A query the search form navigates with always passes the server
      action's input schema, so the search it starts either stops at the
      configuration check or calls the detection flow first with the parsed
      query; it never calls the description flow. */
  lemma FormAcceptedQueryReachesFlows(query: string, clientId: Option<string>, flows: FlowOutcomes)
    requires Accepted(Parse(query))
    ensures var run := AnalyzeSong(Parse(query), false, clientId, flows);
      && (SpotifyNotConfigured(clientId) ==> run == Run(Failure(ErrorValue(NotConfigured)), []))
      && (!SpotifyNotConfigured(clientId) ==>
            1 <= |run.calls| <= 2 && run.calls[0] == DetectBpmAndKey(Parse(query)))
  {
  }

  class SearchHandler {
    var searchResults: Option<seq<SongAnalysisResult>>
    var isSearchLoading: bool
    var toasts: seq<Toast>

    constructor()
      ensures searchResults == None && !isSearchLoading && toasts == []
      ensures Render() == Children
    {
      searchResults := None;
      isSearchLoading := false;
      toasts := [];
    }

    function Render(): View
      reads this
    {
      RenderSelection(isSearchLoading, searchResults)
    }

    /** The start of `performSearch`: loading on, previous results cleared,
        and the query parsed into the analysis request. */
    method BeginSearch(query: string) returns (request: SongQuery)
      modifies this
      ensures isSearchLoading && searchResults == None && toasts == old(toasts)
      ensures Render() == Skeleton
      ensures request == Parse(query)
    {
      isSearchLoading := true;
      searchResults := None;
      request := Parse(query);
    }

    /** The end of `performSearch`: one result on success; on failure a toast
        and an empty list; loading off in every case (`finally`). */
    method FinishSearch(outcome: Result<SongAnalysisResult>)
      modifies this
      ensures !isSearchLoading
      ensures outcome.Success? ==> searchResults == Some([outcome.value]) && toasts == old(toasts)
      ensures outcome.Failure? ==> searchResults == Some([]) && toasts == old(toasts) + [FailureToast(outcome.error)]
      ensures Render().SearchCards?
    {
      match outcome {
        case Success(result) =>
          searchResults := Some([result]);
        case Failure(error) =>
          toasts := toasts + [FailureToast(error)];
          searchResults := Some([]);
      }
      isSearchLoading := false;
    }

    /** The effect run when the `q` parameter changes: a search when it is
        truthy, otherwise the results are reset to null. */
    method OnQueryChange(q: Option<string>, clientId: Option<string>, flows: FlowOutcomes)
      modifies this
      ensures Truthy(q) ==>
        && !isSearchLoading
        && searchResults == Some(SearchResults(q.value, clientId, flows))
        && Render() == SearchCards(SearchResults(q.value, clientId, flows))
        && toasts == old(toasts) + SearchToasts(q.value, clientId, flows)
      ensures !Truthy(q) ==>
        && searchResults == None && isSearchLoading == old(isSearchLoading) && toasts == old(toasts)
      ensures !Truthy(q) && !old(isSearchLoading) ==> Render() == Children
    {
      if q.Some? && q.value != "" {
        var request := BeginSearch(q.value);
        var result, calls := AnalyzeSongAction(request, false, clientId, flows);
        FinishSearch(result);
      } else {
        searchResults := None;
      }
    }
  }
}
