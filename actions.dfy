/** The server actions (src/app/actions.ts): input validation, the
    configuration check, the calls to the AI flows with error re-wrapping, and
    the batch "trending" action that keeps only the songs that were analysed
    successfully.

    The flows themselves are not part of this model. Each call is represented
    by the outcome it settles with, given as a parameter, and the calls made
    are recorded, in order, so that "no flow is called" can be stated. */
module Actions {
  import opened Common
  import opened Text

  /** What `detectBpmAndKey` returns: tempo, key and duration, and possibly
      fields named `artist` and `title` of its own, which the result spread
      would carry along. */
  datatype SongInfo = SongInfo(bpm: int, key: string, duration: string, artist: Option<string>, title: Option<string>)

  /** `SongAnalysisResult`: the detected details, the song's identity, the
      album art URL and the optional description. */
  datatype SongAnalysisResult = SongAnalysisResult(
    bpm: int, key: string, duration: string,
    artist: string, title: string, albumArt: string, description: Option<string>)

  /** The input of `generateSongDescription`: `{...parsedInput.data,
      ...songInfo}`, where a field of the song info overrides the input's. */
  datatype DescriptionRequest = DescriptionRequest(artist: string, title: string, bpm: int, key: string, duration: string)

  datatype FlowCall =
    | DetectBpmAndKey(query: SongQuery)
    | GenerateAlbumArt(query: SongQuery)
    | GenerateSongDescription(request: DescriptionRequest)

  /** How each flow call of one analysis settles. */
  datatype FlowOutcomes = FlowOutcomes(detect: Result<SongInfo>, albumArt: Result<string>, description: Result<string>)

  /** An analysis: how it settled and which flow calls it made. */
  datatype Run = Run(result: Result<SongAnalysisResult>, calls: seq<FlowCall>)

  const InvalidInput := "Invalid input: Title and artist are required."
  const NotConfigured := "The Spotify integration is not configured. Please add your NEXT_PUBLIC_SPOTIFY_CLIENT_ID as an environment variable in your hosting provider settings."
  /** The generic failure message, in pieces so that its characters can be
      reasoned about piece by piece; together they are the message thrown
      at src/app/actions.ts:64. */
  const GenericFailureHead := "Could not analyze the song. " + "The model may not have "
  const GenericFailureTail := "information on it or it " + "might be a temporary issue. "
  const GenericFailure := GenericFailureHead + GenericFailureTail + "Please try another song."

  lemma GenericHeadLacksCapitalS()
    ensures 'S' !in GenericFailureHead
  {
    assert 'S' !in "Could not analyze the song. ";
    assert 'S' !in "The model may not have ";
  }

  lemma GenericTailLacksCapitalS()
    ensures 'S' !in GenericFailureTail
  {
    assert 'S' !in "information on it or it ";
    assert 'S' !in "might be a temporary issue. ";
  }

  /** The generic message does not mention Spotify, so a caller can tell it
      from an error that was passed through. */
  lemma GenericLacksSpotify()
    ensures !Includes(GenericFailure, "Spotify")
  {
    GenericHeadLacksCapitalS();
    GenericTailLacksCapitalS();
    assert 'S' !in "Please try another song.";
    MissingFirstChar(GenericFailure, "Spotify");
  }

  /** `ActionInputSchema`: title and artist each at least one character long. */
  predicate SchemaAccepts(input: SongQuery) {
    |input.title| >= 1 && |input.artist| >= 1
  }

  /** `spotifyNotConfigured`: the client id from the environment is absent or
      empty (both falsy). */
  predicate SpotifyNotConfigured(clientId: Option<string>) {
    clientId == None || clientId == Some("")
  }

  /** The `catch` of `analyzeSongAction`: an `Error` whose message mentions
      Spotify passes through; anything else becomes the generic failure. */
  function Rewrap(e: Thrown): Thrown {
    if e.ErrorValue? && Includes(e.message, "Spotify") then e else ErrorValue(GenericFailure)
  }

  function DescriptionRequestFor(input: SongQuery, info: SongInfo): DescriptionRequest {
    DescriptionRequest(info.artist.GetOr(input.artist), info.title.GetOr(input.title), info.bpm, info.key, info.duration)
  }

  /** The returned object `{...songInfo, artist, title, albumArt, description}`. */
  function Assemble(info: SongInfo, input: SongQuery, albumArt: string, description: Option<string>): SongAnalysisResult {
    SongAnalysisResult(info.bpm, info.key, info.duration, input.artist, input.title, albumArt, description)
  }

  /** The `try` block: detection, then album art, then (on request) the
      description; the first failure ends it with that flow's raw error. */
  function TryBlock(input: SongQuery, includeDescription: bool, flows: FlowOutcomes): Run {
    var detect := [DetectBpmAndKey(input)];
    var art := detect + [GenerateAlbumArt(input)];
    match flows.detect
    case Failure(e) => Run(Failure(e), detect)
    case Success(info) =>
      match flows.albumArt
      case Failure(e) => Run(Failure(e), art)
      case Success(url) =>
        if !includeDescription then Run(Success(Assemble(info, input, url, None)), art)
        else
          var all := art + [GenerateSongDescription(DescriptionRequestFor(input, info))];
          match flows.description
          case Failure(e) => Run(Failure(e), all)
          case Success(text) => Run(Success(Assemble(info, input, url, Some(text))), all)
  }

  /** `analyzeSongAction` as a whole: the schema check, then the configuration
      check, then the `try` block with its errors re-wrapped. */
  function AnalyzeSong(input: SongQuery, includeDescription: bool, clientId: Option<string>, flows: FlowOutcomes): Run {
    if !SchemaAccepts(input) then Run(Failure(ErrorValue(InvalidInput)), [])
    else if SpotifyNotConfigured(clientId) then Run(Failure(ErrorValue(NotConfigured)), [])
    else
      var attempt := TryBlock(input, includeDescription, flows);
      match attempt.result
      case Success(_) => attempt
      case Failure(e) => Run(Failure(Rewrap(e)), attempt.calls)
  }

  /** `analyzeSongAction(input, includeDescription)`, step by step with its
      early throws and the conditionally assigned `description`. */
  method AnalyzeSongAction(input: SongQuery, includeDescription: bool, clientId: Option<string>, flows: FlowOutcomes)
    returns (result: Result<SongAnalysisResult>, calls: seq<FlowCall>)
    ensures Run(result, calls) == AnalyzeSong(input, includeDescription, clientId, flows)
  {
    calls := [];
    if !SchemaAccepts(input) {
      return Failure(ErrorValue(InvalidInput)), calls;
    }
    if SpotifyNotConfigured(clientId) {
      return Failure(ErrorValue(NotConfigured)), calls;
    }
    calls := calls + [DetectBpmAndKey(input)];
    if flows.detect.Failure? {
      return Failure(Rewrap(flows.detect.error)), calls;
    }
    var songInfo := flows.detect.value;
    calls := calls + [GenerateAlbumArt(input)];
    if flows.albumArt.Failure? {
      return Failure(Rewrap(flows.albumArt.error)), calls;
    }
    var albumArt := flows.albumArt.value;
    var description: Option<string> := None;
    if includeDescription {
      calls := calls + [GenerateSongDescription(DescriptionRequestFor(input, songInfo))];
      if flows.description.Failure? {
        return Failure(Rewrap(flows.description.error)), calls;
      }
      description := Some(flows.description.value);
    }
    result := Success(Assemble(songInfo, input, albumArt, description));
  }

  // ------------------------------------------------ error messages

  /** Re-wrapping always yields an `Error`, either the one thrown or the
      generic one, and the caller can tell which from the message alone: it
      mentions Spotify exactly when a Spotify `Error` was passed through. */
  lemma RewrapClassifies(e: Thrown)
    ensures Rewrap(e).ErrorValue?
    ensures Rewrap(e) == e || Rewrap(e) == ErrorValue(GenericFailure)
    ensures Includes(Rewrap(e).message, "Spotify") <==> e.ErrorValue? && Includes(e.message, "Spotify")
  {
    GenericLacksSpotify();
  }

  /** Re-wrapping twice is re-wrapping once. */
  lemma RewrapIdempotent(e: Thrown)
    ensures Rewrap(Rewrap(e)) == Rewrap(e)
  {
  }

  // ------------------------------------------------ properties of the action

  /** The action fails with the invalid-input error without calling any flow
      exactly when the schema rejects the input. */
  lemma InvalidInputIffSchemaRejects(input: SongQuery, includeDescription: bool, clientId: Option<string>, flows: FlowOutcomes)
    ensures var run := AnalyzeSong(input, includeDescription, clientId, flows);
      run.result == Failure(ErrorValue(InvalidInput)) && run.calls == [] <==> !SchemaAccepts(input)
  {
    assert InvalidInput != NotConfigured;
  }

  /** A valid input with no client id fails with the configuration error
      before any flow is called. */
  lemma NotConfiguredCallsNothing(input: SongQuery, includeDescription: bool, clientId: Option<string>, flows: FlowOutcomes)
    requires SchemaAccepts(input) && SpotifyNotConfigured(clientId)
    ensures AnalyzeSong(input, includeDescription, clientId, flows) == Run(Failure(ErrorValue(NotConfigured)), [])
  {
  }

  /** Flow calls happen only after both checks pass, in the fixed order
      detection, album art, description, each with the validated input. */
  lemma CallsInOrder(input: SongQuery, includeDescription: bool, clientId: Option<string>, flows: FlowOutcomes)
    ensures var calls := AnalyzeSong(input, includeDescription, clientId, flows).calls;
      && (calls != [] ==> SchemaAccepts(input) && !SpotifyNotConfigured(clientId))
      && |calls| <= 3
      && (|calls| >= 1 ==> calls[0] == DetectBpmAndKey(input))
      && (|calls| >= 2 ==> calls[1] == GenerateAlbumArt(input) && flows.detect.Success?)
      && (|calls| == 3 ==>
            && includeDescription && flows.albumArt.Success?
            && calls[2] == GenerateSongDescription(DescriptionRequestFor(input, flows.detect.value)))
  {
  }

  /** The analysis succeeds exactly when both checks pass and every flow it
      needs succeeds; the description flow is needed only on request. */
  lemma SucceedsIffFlowsSucceed(input: SongQuery, includeDescription: bool, clientId: Option<string>, flows: FlowOutcomes)
    ensures AnalyzeSong(input, includeDescription, clientId, flows).result.Success? <==>
      && SchemaAccepts(input) && !SpotifyNotConfigured(clientId)
      && flows.detect.Success? && flows.albumArt.Success?
      && (includeDescription ==> flows.description.Success?)
  {
  }

  /** A successful result carries the validated artist and title (never the
      song info's own), the detected tempo, key and duration, the album art,
      and a description exactly when one was requested. */
  lemma SuccessfulResult(input: SongQuery, includeDescription: bool, clientId: Option<string>, flows: FlowOutcomes)
    requires AnalyzeSong(input, includeDescription, clientId, flows).result.Success?
    ensures var r := AnalyzeSong(input, includeDescription, clientId, flows).result.value;
      && r.artist == input.artist && r.title == input.title
      && r.bpm == flows.detect.value.bpm && r.key == flows.detect.value.key
      && r.duration == flows.detect.value.duration
      && r.albumArt == flows.albumArt.value
      && (r.description.Some? <==> includeDescription)
      && (includeDescription ==> r.description == Some(flows.description.value))
  {
  }

  /** Without a request the description flow is never called. */
  lemma NoDescriptionUnlessRequested(input: SongQuery, clientId: Option<string>, flows: FlowOutcomes)
    ensures forall c :: c in AnalyzeSong(input, false, clientId, flows).calls ==> !c.GenerateSongDescription?
  {
  }

  /** Once both checks pass, the first needed flow that fails decides the
      outcome: its error, re-wrapped, is what the caller receives. */
  lemma FlowErrorReported(input: SongQuery, includeDescription: bool, clientId: Option<string>, flows: FlowOutcomes)
    requires SchemaAccepts(input) && !SpotifyNotConfigured(clientId)
    ensures flows.detect.Failure? ==>
      AnalyzeSong(input, includeDescription, clientId, flows).result == Failure(Rewrap(flows.detect.error))
    ensures flows.detect.Success? && flows.albumArt.Failure? ==>
      AnalyzeSong(input, includeDescription, clientId, flows).result == Failure(Rewrap(flows.albumArt.error))
    ensures flows.detect.Success? && flows.albumArt.Success? && includeDescription && flows.description.Failure? ==>
      AnalyzeSong(input, includeDescription, clientId, flows).result == Failure(Rewrap(flows.description.error))
  {
  }

  /** Every failure is an `Error` carrying one of the three fixed messages or a
      flow's own message that mentions Spotify. */
  lemma FailureMessages(input: SongQuery, includeDescription: bool, clientId: Option<string>, flows: FlowOutcomes)
    requires AnalyzeSong(input, includeDescription, clientId, flows).result.Failure?
    ensures var e := AnalyzeSong(input, includeDescription, clientId, flows).result.error;
      && e.ErrorValue?
      && (e.message in {InvalidInput, NotConfigured, GenericFailure} || Includes(e.message, "Spotify"))
  {
    var attempt := TryBlock(input, includeDescription, flows);
    if SchemaAccepts(input) && !SpotifyNotConfigured(clientId) {
      RewrapClassifies(attempt.result.error);
    }
  }

  // ------------------------------------------------ the trending action

  /** `results.filter(fulfilled).map(value)`: the values of the fulfilled
      outcomes, in order. */
  function Fulfilled<T>(settled: seq<Result<T>>): seq<T> {
    if settled == [] then []
    else
      var rest := Fulfilled(settled[1..]);
      match settled[0]
      case Success(v) => [v] + rest
      case Failure(_) => rest
  }

  /** `positions` lists, in increasing order, exactly the indexes of the
      fulfilled outcomes, and `values` holds their values in that order. */
  predicate FulfilledAt<T(==)>(settled: seq<Result<T>>, values: seq<T>, positions: seq<int>) {
    && |positions| == |values|
    && (forall k :: 0 <= k < |positions| ==>
          0 <= positions[k] < |settled| && settled[positions[k]] == Success(values[k]))
    && (forall k, l :: 0 <= k < l < |positions| ==> positions[k] < positions[l])
    && (forall i :: 0 <= i < |settled| && settled[i].Success? ==> i in positions)
  }

  function Shift(positions: seq<int>): (shifted: seq<int>)
    ensures |shifted| == |positions|
    ensures forall k :: 0 <= k < |positions| ==> shifted[k] == positions[k] + 1
  {
    seq(|positions|, k requires 0 <= k < |positions| => positions[k] + 1)
  }

  /** The filter keeps exactly the fulfilled values, in input order: its
      length is the number of fulfilled outcomes and nothing rejected leaks
      in. */
  lemma {:induction false} FulfilledPositions<T>(settled: seq<Result<T>>)
    ensures exists positions :: FulfilledAt(settled, Fulfilled(settled), positions)
  {
    if settled == [] {
      assert FulfilledAt(settled, Fulfilled(settled), []);
    } else {
      var rest := settled[1..];
      FulfilledPositions(rest);
      var tail :| FulfilledAt(rest, Fulfilled(rest), tail);
      var shifted := ShiftPositions(settled, Fulfilled(rest), tail);
      if settled[0].Success? {
        assert Fulfilled(settled) == [settled[0].value] + Fulfilled(rest);
        PrependFirst(settled, Fulfilled(rest), shifted);
      } else {
        assert Fulfilled(settled) == Fulfilled(rest);
        assert FulfilledAt(settled, Fulfilled(settled), shifted);
      }
    }
  }

  /** The positions of the fulfilled outcomes after the first, counted in the
      whole sequence. */
  predicate FulfilledAfterFirst<T(==)>(settled: seq<Result<T>>, values: seq<T>, shifted: seq<int>) {
    && settled != []
    && |shifted| == |values|
    && (forall k :: 0 <= k < |shifted| ==>
          1 <= shifted[k] < |settled| && settled[shifted[k]] == Success(values[k]))
    && (forall k, l :: 0 <= k < l < |shifted| ==> shifted[k] < shifted[l])
    && (forall i :: 1 <= i < |settled| && settled[i].Success? ==> i in shifted)
  }

  lemma ShiftPositions<T>(settled: seq<Result<T>>, values: seq<T>, tail: seq<int>) returns (shifted: seq<int>)
    requires settled != [] && FulfilledAt(settled[1..], values, tail)
    ensures FulfilledAfterFirst(settled, values, shifted)
  {
    shifted := Shift(tail);
    forall k | 0 <= k < |shifted|
      ensures 1 <= shifted[k] < |settled| && settled[shifted[k]] == Success(values[k])
    {
      assert settled[1..][tail[k]] == settled[tail[k] + 1];
    }
    forall i | 1 <= i < |settled| && settled[i].Success?
      ensures i in shifted
    {
      assert settled[1..][i - 1] == settled[i];
      var k :| 0 <= k < |tail| && tail[k] == i - 1;
      assert shifted[k] == i;
    }
  }

  lemma PrependFirst<T>(settled: seq<Result<T>>, values: seq<T>, shifted: seq<int>)
    requires FulfilledAfterFirst(settled, values, shifted) && settled[0].Success?
    ensures FulfilledAt(settled, [settled[0].value] + values, [0] + shifted)
  {
    var positions, all := [0] + shifted, [settled[0].value] + values;
    forall k | 0 <= k < |positions|
      ensures 0 <= positions[k] < |settled| && settled[positions[k]] == Success(all[k])
    {
      if k > 0 {
        assert positions[k] == shifted[k - 1] && all[k] == values[k - 1];
      }
    }
  }

  /** With every outcome rejected, nothing is kept. */
  lemma {:induction false} FulfilledOfRejected<T>(settled: seq<Result<T>>)
    requires forall i :: 0 <= i < |settled| ==> settled[i].Failure?
    ensures Fulfilled(settled) == []
  {
    if settled != [] {
      FulfilledOfRejected(settled[1..]);
    }
  }

  /** One analysis per listed song, without description, each settling with
      its own flow outcomes (`Promise.allSettled` over `analyzeSongAction`). */
  function Settle(songs: seq<SongQuery>, clientId: Option<string>, flows: nat -> FlowOutcomes): (settled: seq<Result<SongAnalysisResult>>)
    ensures |settled| == |songs|
  {
    seq(|songs|, i requires 0 <= i < |songs| => AnalyzeSong(songs[i], false, clientId, flows(i)).result)
  }

  /** `getTrendingSongsAction`: a failure of the list fetch is rethrown
      as is; otherwise the fulfilled analyses, in list order. */
  function GetTrendingSongsAction(listing: Result<seq<SongQuery>>, clientId: Option<string>, flows: nat -> FlowOutcomes): Result<seq<SongAnalysisResult>> {
    match listing
    case Failure(e) => Failure(e)
    case Success(songs) => Success(Fulfilled(Settle(songs, clientId, flows)))
  }

  /** The trending action fails exactly when fetching the list fails, and
      then with that very error: a song's failure never makes it fail. */
  lemma TrendingFailsOnlyWithListing(listing: Result<seq<SongQuery>>, clientId: Option<string>, flows: nat -> FlowOutcomes)
    ensures GetTrendingSongsAction(listing, clientId, flows).Failure? <==> listing.Failure?
    ensures listing.Failure? ==> GetTrendingSongsAction(listing, clientId, flows).error == listing.error
  {
  }

  /** The trending list is the successful analyses of the listed songs, in
      list order, each the analysis of its own song, none with a
      description. */
  lemma TrendingIsFulfilledAnalyses(songs: seq<SongQuery>, clientId: Option<string>, flows: nat -> FlowOutcomes)
    ensures var trending := GetTrendingSongsAction(Success(songs), clientId, flows).value;
      exists positions :: FulfilledAt(Settle(songs, clientId, flows), trending, positions)
    ensures var trending := GetTrendingSongsAction(Success(songs), clientId, flows).value;
      forall k :: 0 <= k < |trending| ==> trending[k].description == None
  {
    var settled := Settle(songs, clientId, flows);
    var trending := Fulfilled(settled);
    FulfilledPositions(settled);
    var positions :| FulfilledAt(settled, trending, positions);
    forall k | 0 <= k < |trending|
      ensures trending[k].description == None
    {
      var i := positions[k];
      assert settled[i] == AnalyzeSong(songs[i], false, clientId, flows(i)).result;
      SuccessfulResult(songs[i], false, clientId, flows(i));
    }
    assert GetTrendingSongsAction(Success(songs), clientId, flows).value == trending;
    assert FulfilledAt(Settle(songs, clientId, flows), trending, positions);
  }

  /** Without a client id every song fails, so the trending list is empty
      rather than an error. */
  lemma TrendingEmptyWhenNotConfigured(songs: seq<SongQuery>, clientId: Option<string>, flows: nat -> FlowOutcomes)
    requires SpotifyNotConfigured(clientId)
    ensures GetTrendingSongsAction(Success(songs), clientId, flows) == Success([])
  {
    var settled := Settle(songs, clientId, flows);
    forall i | 0 <= i < |settled|
      ensures settled[i].Failure?
    {
      assert settled[i] == AnalyzeSong(songs[i], false, clientId, flows(i)).result;
    }
    FulfilledOfRejected(settled);
  }
}
