# TRACKBPM — a verified model of the query-to-song-details pipeline

TRACKBPM is a small Next.js site. You type a song as "Artist - Title" and it
shows the song's tempo (BPM), key and duration, analysed by AI "flows". Its
home page lists trending songs, with an ad banner between them. This project
models the parts of the site that hold logic, and proves what they promise.

- **The query parse** (`Query`). Split the query on `-`, trim each piece,
  take the first piece as the artist, and join the rest with single spaces
  as the title. The search form and the search handler contain the same
  code, so both use `Query.Parse`.
- **The search form** (`SearchForm`). The schema needs at least three
  characters. `onSubmit` then sets the loading flag, rejects an empty artist
  or title with a toast, and otherwise navigates with the query as typed.
  It is a class whose methods update the loading flag, the field and its
  message, the toasts shown and the navigations started. Once the form has
  been submitted, every edit re-runs the schema; a search resets the field
  but the form still counts as submitted.
- **The server actions** (`Actions`).
  - `analyzeSongAction` runs its checks in a fixed order: input schema,
    then the Spotify client id, then the flow calls. It then re-wraps
    errors.
  - `getTrendingSongsAction` keeps only the analyses that succeeded, in
    list order.
  - The flows themselves are not part of this model. Each flow call is
    given by the outcome it settles with, and the calls made are recorded.
- **The search handler** (`SearchHandler`). A class holding the two state
  variables `searchResults` (null, `[]` or `[r]`) and `isSearchLoading`.
  It covers the effect's transitions and the rule that chooses between the
  skeleton, the results and the trending list.
- **The mock song service** (`MusicService`). A lookup in a two-level table
  by lower-cased artist and title. On a miss it draws a fallback record:
  the random draw is a nondeterministic choice within the source's ranges.
- **The trending list** (`Page`). One card per song, with an ad after
  every third card, in fragments keyed by title and index.
- **String operations** (`Text`). `Text` holds the JavaScript string
  operations these rely on: `trim`, `split`/`join`, `toLowerCase`,
  `includes`, `String(n)` and `padStart`. The `Common` module holds the
  shared values: `Option`, `Result`, thrown values and toasts.

Each state-changing method's `ensures` gives its whole new state. Where
the source computes something, it does so through the pure functions
(`Parse`, `Decide`, `SchemaMessage`, `AnalyzeSong`, `SearchResults`,
`SearchToasts`, `FailureToast`, `Lookup`, `FallbackShaped`). The
properties are proved as lemmas about those functions.

## Model

| member | source | states |
|---|---|---|
| `Text.Trim` | src/components/search-form.tsx:43 | `trim` returns text with no whitespace at either end, found inside the input with only whitespace around it |
| `Text.TrimOfPadded` | src/components/search-form.tsx:43 | trimming any trimmed text wrapped in whitespace gives that text back (the partner that pins `Trim` down) |
| `Text.TrimIdempotent` | src/components/search-form.tsx:43 | trimming twice is trimming once |
| `Text.TrimOmits` | src/components/search-form.tsx:43 | trimming never introduces a character |
| `Text.IndexOf` | src/components/search-form.tsx:43-44 | the first occurrence of a character, or the length when there is none |
| `Text.Split` | src/components/search-form.tsx:43 | `split` always returns at least one piece |
| `Text.Join` | src/components/search-form.tsx:45 | `parts.join(sep)`: the pieces with the separator between each two; its properties are `Text.SplitThenJoin`, `Text.JoinThenSplit` and `Text.JoinExcludes` |
| `Text.SplitPiecesLackSeparator` | src/components/search-form.tsx:43 | no piece of a split contains the separator |
| `Text.SplitHead` | src/components/search-form.tsx:43-44 | the first piece is the text before the first separator; there is one piece exactly when the separator is absent |
| `Text.SplitThenJoin` | src/components/search-form.tsx:43-45 | joining the pieces with the separator gives the text back |
| `Text.JoinThenSplit` | src/components/search-form.tsx:43-45 | splitting a join of separator-free pieces gives the pieces back |
| `Text.SplitAfterFirst` | src/components/search-form.tsx:43 | a separator after separator-free text starts a new piece |
| `Text.JoinExcludes` | src/components/search-form.tsx:45 | joining adds no character other than the separator's |
| `Text.ToLower` | src/services/music-service.ts:52-53 | lower-casing leaves no capital and changes letter case only |
| `Text.LowerCaseAgrees` | src/services/music-service.ts:52-53 | texts equal up to letter case lower-case to the same text |
| `Text.ToLowerKeepsLower` | src/services/music-service.ts:52-53 | text without capitals is left unchanged |
| `Text.Includes` | src/app/actions.ts:61 | `message.includes(sub)`: `sub` occurs in the message; characterised by `Text.IncludesIffOccurs` |
| `Text.IncludesIffOccurs` | src/app/actions.ts:61 | `includes` holds exactly when the text occurs at some offset |
| `Text.OccursIncludes` | src/app/actions.ts:61 | an occurrence at any offset makes `includes` true |
| `Text.MissingFirstChar` | src/app/actions.ts:61 | a text lacking the first character of the sought text does not include it (how the fixed messages are shown not to mention Spotify) |
| `Text.DecimalString` | src/app/page.tsx:22 | `String(n)`: a non-empty run of digits, with no leading zero, that reads back as `n` |
| `Text.DecimalStringInjective` | src/app/page.tsx:22 | different numbers print differently |
| `Text.DigitChar` | src/services/music-service.ts:65 | a digit character that reads back as the digit |
| `Text.DigitRoundTrip` | src/services/music-service.ts:65 | a digit character is the character of its value |
| `Text.PadStart` | src/services/music-service.ts:65 | `padStart`: at least the target length, the input as suffix, fill characters before it |
| `Text.TwoDigits` | src/services/music-service.ts:65 | `String(n).padStart(2, '0')` for n below 100 is the tens digit then the units digit |
| `Query.TrimAll` | src/components/search-form.tsx:43 | every piece trimmed, none added or dropped |
| `Query.Parts` | src/components/search-form.tsx:43 | the trimmed pieces are never an empty list, so `parts[0]` always exists |
| `Query.Parse` | src/components/search-form.tsx:43-45 | the parse shared by the form and the handler: first trimmed piece as artist, the other trimmed pieces joined with single spaces as title; its properties are the `Query` lemmas below |
| `Query.Accepted` | src/components/search-form.tsx:47 | a parse passes the format check of line 47 exactly when artist and title are both non-empty; used by `Query.ParseFormatted` and `SearchForm.NavigationIsWellFormed` |
| `Query.ParseArtistBeforeFirstHyphen` | src/components/search-form.tsx:43-45 | the artist is the trimmed text before the first `-`; with no `-` the title is empty |
| `Query.ParseDropsHyphens` | src/components/search-form.tsx:43-45 | neither artist nor title contains a `-`, and the artist is trimmed |
| `Query.ParseFormatted` | src/components/search-form.tsx:43-47 | "<artist> - <title>" with trimmed, non-empty, hyphen-free parts parses back to that pair and passes the format check |
| `Query.HyphenatedTitle` | src/components/search-form.tsx:43-45 | "a - b - c" gives title "b c": hyphens inside a title are lost |
| `Query.EmptyMiddlePiece` | src/components/search-form.tsx:43-45 | "a - - b" gives title " b", with a leading space |
| `SearchForm.SchemaMessage` | src/components/search-form.tsx:22-26 | `formSchema`'s field message: present exactly for texts under three characters, and then the fixed text |
| `SearchForm.Decide` | src/components/search-form.tsx:22-57 | how a submission ends: rejected by the schema, rejected for its format, or a navigation with the query as typed; its properties are the lemmas below |
| `SearchForm.SchemaMessageAgrees` | src/components/search-form.tsx:22-26 | the field message is shown exactly for the texts a submission rejects before `onSubmit` runs |
| `SearchForm.NoHyphenNeverNavigates` | src/components/search-form.tsx:45-55 | a query without `-` is never searched; at three characters or more it is rejected for its format |
| `SearchForm.FormattedQueryNavigates` | src/components/search-form.tsx:43-57 | a well-formed "<artist> - <title>" query always navigates, carrying the query as typed |
| `SearchForm.NavigationIsWellFormed` | src/components/search-form.tsx:47-57 | whatever is navigated with parses to a non-empty, trimmed artist and a non-empty title |
| `SearchForm.SearchForm.constructor` | src/components/search-form.tsx:29-38 | not loading, empty field, no message, not yet submitted, no toast or navigation yet |
| `SearchForm.SearchForm.Type` | src/components/search-form.tsx:33-78 | typing sets the field; once the form has been submitted (and not reset) the schema re-runs on the new text, so the message appears or clears; before that the message is left alone; the invariant is kept: no message before a submission, and after one the schema's verdict on the current text, except for the empty field a search leaves behind |
| `SearchForm.SearchForm.SetIsLoading` | src/components/search-form.tsx:29 | the loading flag takes the value and the update is recorded |
| `SearchForm.SearchForm.HandleSubmit` | src/components/search-form.tsx:22-67 | `form.handleSubmit(onSubmit)` (line 67) with `formSchema` (lines 22-26): under three characters the schema message, nothing else changes and `onSubmit` does not run; otherwise the effects of `onSubmit`; either way the form then counts as submitted, also after a search whose `onSubmit` reset it |
| `SearchForm.SearchForm.OnSubmit` | src/components/search-form.tsx:40-61 | loading set to true first; on rejection the invalid-format toast and loading back to false with no navigation; on acceptance a navigation with the unparsed query, a pending timer, loading still true and the form reset (empty, no message, unsubmitted) |
| `SearchForm.SearchForm.Reset` | src/components/search-form.tsx:60 | `form.reset()`: empty field, no message, no longer submitted; loading, toasts, navigations and timers untouched |
| `SearchForm.SearchForm.LoadingTimerFires` | src/components/search-form.tsx:59 | the timer turns loading off |
| `Actions.SchemaAccepts` | src/app/actions.ts:10-13 | `ActionInputSchema`: title and artist each at least one character (whitespace counts) |
| `Actions.SpotifyNotConfigured` | src/app/actions.ts:22-25 | `!process.env.NEXT_PUBLIC_SPOTIFY_CLIENT_ID`: the client id is absent or empty |
| `Actions.Rewrap` | src/app/actions.ts:59-65 | the `catch` block's re-throw; its partner is `Actions.RewrapClassifies` |
| `Actions.TryBlock` | src/app/actions.ts:39-58 | the `try` block: detection, album art, then the description on request, ending at the first failure with that flow's raw error |
| `Actions.DescriptionRequestFor` | src/app/actions.ts:45-48 | the spread `{...parsedInput.data, ...songInfo}`: the song info's own artist or title wins when present; seen in the calls by `Actions.CallsInOrder` |
| `Actions.Assemble` | src/app/actions.ts:52-58 | the returned object: the detected details, then the validated artist and title over the song info's, the album art and the description; its properties are `Actions.SuccessfulResult` |
| `Actions.AnalyzeSong` | src/app/actions.ts:27-66 | `analyzeSongAction` as a function of its input, the client id and the flow outcomes; the method `Actions.AnalyzeSongAction` is proved equal to it, and the lemmas below state its properties |
| `Actions.AnalyzeSongAction` | src/app/actions.ts:27-66 | the step-by-step action settles, and makes the flow calls, exactly as `AnalyzeSong` specifies |
| `Actions.InvalidInputIffSchemaRejects` | src/app/actions.ts:10-31 | the action fails with the invalid-input error, calling nothing, exactly when title or artist is empty (whitespace-only passes) |
| `Actions.NotConfiguredCallsNothing` | src/app/actions.ts:22-37 | a valid input with an absent or empty client id fails with the configuration error before any flow is called |
| `Actions.CallsInOrder` | src/app/actions.ts:39-50 | calls happen only after both checks, at most three, in the order detect, album art, description, each with the validated input |
| `Actions.SucceedsIffFlowsSucceed` | src/app/actions.ts:27-58 | success exactly when both checks pass and every needed flow succeeds; the description flow is needed only on request |
| `Actions.SuccessfulResult` | src/app/actions.ts:43-58 | the result carries the validated artist and title over the song info's own, the detected details, the album art, and a description exactly when requested |
| `Actions.NoDescriptionUnlessRequested` | src/app/actions.ts:44-50 | without a request the description flow is never called |
| `Actions.GenericLacksSpotify` | src/app/actions.ts:61-64 | the generic message does not mention Spotify |
| `Actions.RewrapClassifies` | src/app/actions.ts:59-65 | the re-throw is always an `Error`, either the one caught or the generic one, and its message mentions Spotify exactly when a Spotify `Error` was caught, so the caller can tell a passed-through error from the generic one |
| `Actions.RewrapIdempotent` | src/app/actions.ts:59-65 | re-wrapping an already re-wrapped error changes nothing |
| `Actions.FlowErrorReported` | src/app/actions.ts:39-65 | once both checks pass, the first needed flow that fails (detection, else album art, else the requested description) decides the outcome: its error, re-wrapped |
| `Actions.FailureMessages` | src/app/actions.ts:28-65 | every failure is an `Error` with one of the three fixed messages or a message mentioning Spotify |
| `Actions.Fulfilled` | src/app/actions.ts:80-82 | `results.filter(fulfilled).map(value)`; its partner is `Actions.FulfilledPositions` |
| `Actions.FulfilledPositions` | src/app/actions.ts:80-82 | the filter keeps exactly the fulfilled values, in input order: one per fulfilled outcome, each at its own position |
| `Actions.FulfilledOfRejected` | src/app/actions.ts:80-82 | when every outcome is rejected, nothing is kept |
| `Actions.Settle` | src/app/actions.ts:75-77 | one settled outcome per listed song |
| `Actions.GetTrendingSongsAction` | src/app/actions.ts:68-89 | the trending action: the list fetch's error rethrown, or the fulfilled analyses of the listed songs; its properties are the three lemmas below |
| `Actions.TrendingFailsOnlyWithListing` | src/app/actions.ts:71-88 | the trending action fails exactly when fetching the list fails, with that very error |
| `Actions.TrendingIsFulfilledAnalyses` | src/app/actions.ts:72-82 | the trending list is the successful analyses of the listed songs, in order, none with a description |
| `Actions.TrendingEmptyWhenNotConfigured` | src/app/actions.ts:34-82 | when the list fetch succeeds but there is no client id, every analysis is rejected and the trending list is empty |
| `SearchHandler.RenderSelection` | src/components/search-handler.tsx:46-61 | the render rule; its partner is `SearchHandler.RenderPriority` |
| `SearchHandler.FailureToast` | src/components/search-handler.tsx:30-34 | the "Analysis Failed" toast carries the `Error`'s message, or the unknown-error text for other thrown values; what it shows for this action is `SearchHandler.FailedSearchToast` |
| `SearchHandler.SearchResults` | src/components/search-handler.tsx:24-35 | the results a search settles with: `[result]`, or `[]` when the action throws |
| `SearchHandler.SearchToasts` | src/components/search-handler.tsx:29-35 | the toasts a search adds: none on success, the failure toast on failure; its partner is `SearchHandler.FailedSearchToast` |
| `SearchHandler.Truthy` | src/components/search-handler.tsx:19 | `if (query)`: a present, non-empty `q` parameter |
| `SearchHandler.FailedSearchToast` | src/components/search-handler.tsx:27-35 | a search adds a toast exactly when the analysis fails, and that toast carries the action's own message, never the unknown-error text: the non-`Error` branch of line 33 cannot be reached |
| `SearchHandler.UnknownMessageIsNoActionMessage` | src/components/search-handler.tsx:33 | the unknown-error text is none of the action's fixed messages and does not mention Spotify |
| `SearchHandler.RenderPriority` | src/components/search-handler.tsx:46-61 | skeleton exactly while loading; children exactly when idle with null results; otherwise the cards of the results, an empty list included |
| `SearchHandler.SettledSearchShowsResults` | src/components/search-handler.tsx:27-35 | a settled search shows cards, never the children: exactly one on success, none on failure |
| `SearchHandler.HyphenlessQueryFails` | src/components/search-handler.tsx:24-27 | a query without `-` fails the server's input check, calling nothing, and settles with an empty list |
| `SearchHandler.FormAcceptedQueryReachesFlows` | src/components/search-handler.tsx:24-27 | a query the form accepts passes the server action's input schema: without a client id the search fails with the configuration error and calls nothing, otherwise its first call is detection with the parsed query and it makes at most two calls |
| `SearchHandler.SearchHandler.constructor` | src/components/search-handler.tsx:13-14 | null results, not loading, the children shown |
| `SearchHandler.SearchHandler.BeginSearch` | src/components/search-handler.tsx:20-26 | loading set, previous results cleared to null, the skeleton shown, the query parsed as the form parses it |
| `SearchHandler.SearchHandler.FinishSearch` | src/components/search-handler.tsx:27-38 | success leaves exactly one result; failure adds a toast and leaves `[]`, not null; loading is off either way |
| `SearchHandler.SearchHandler.OnQueryChange` | src/components/search-handler.tsx:17-44 | a truthy `q` settles with the results and toasts `SearchResults` and `SearchToasts` give, loading off; otherwise null results and, when idle, the children |
| `MusicService.MockSongDatabase` | src/services/music-service.ts:18-49 | the ten entries of the table, key for key and record for record; its properties are `MusicService.DatabaseLowerKeyed` and `MusicService.StoredRecordsWellFormed` |
| `MusicService.Lookup` | src/services/music-service.ts:51-58 | a hit exactly when both the lower-cased artist and the lower-cased title are own keys of the table (a known artist with an unknown title misses), and then the stored record |
| `MusicService.LookupMatchesIgnoringCase` | src/services/music-service.ts:51-58 | the lookup is a case-insensitive match against the table: a hit exactly when some stored artist and title equal the inputs up to letter case, and then that stored record |
| `MusicService.GetSongDetails` | src/services/music-service.ts:51-66 | never fails: the stored record, unchanged, on a hit; a fallback-shaped record on a miss. It uses the corrected own-key `Lookup`, so for a known artist with title "constructor" it gives a fallback where the code as written returns `Object.prototype.constructor` (see Findings) |
| `MusicService.Fallback` | src/services/music-service.ts:62-66 | the record built from one draw; its partners are `MusicService.FallbackIsShaped` and `MusicService.ShapedIsFallback` |
| `MusicService.ValidDraw` | src/services/music-service.ts:63-65 | the ranges of the three `Math.floor(Math.random() * k)` draws: 0..80, 0..3 and 0..58 |
| `MusicService.TwoDigitString` | src/services/music-service.ts:65 | `String(n).padStart(2, '0')`; its properties are `Text.TwoDigits` and `MusicService.SecondsDigits` |
| `MusicService.FallbackIsShaped` | src/services/music-service.ts:62-66 | every draw gives bpm in 80..160, one of the four keys, and "3:" plus two digits reading at most 58 |
| `MusicService.ShapedIsFallback` | src/services/music-service.ts:62-66 | every record of that shape comes from some draw, so the shape is exact |
| `MusicService.DurationOfSeconds` | src/services/music-service.ts:65 | the fallback duration is "3:" and two digits reading the drawn seconds |
| `MusicService.SecondsDigits` | src/services/music-service.ts:65 | the padded seconds are two digits that read back as the seconds |
| `MusicService.ShapedSeconds` | src/services/music-service.ts:65 | a fallback-shaped duration prints back from the seconds it shows |
| `MusicService.FallbackBelowFourMinutes` | src/services/music-service.ts:65 | the fallback duration is a valid M:SS and is never "3:59" |
| `MusicService.LookupIgnoresCase` | src/services/music-service.ts:52-57 | inputs that differ only in letter case give the same lookup outcome |
| `MusicService.LeadingSpaceMisses` | src/services/music-service.ts:52-57 | nothing is trimmed: an artist with a leading space always misses |
| `MusicService.DatabaseLowerKeyed` | src/services/music-service.ts:18-49 | every artist key and title key of the table is lower-case |
| `MusicService.StoredSongFound` | src/services/music-service.ts:18-58 | every stored song is found under its own keys |
| `MusicService.StoredRecordsWellFormed` | src/services/music-service.ts:18-49 | every stored record has a positive bpm and an M:SS duration with seconds below 60 |
| `MusicService.TitleProperty` | src/services/music-service.ts:56-57 | a plain-object property read: an own entry exactly for a key, an inherited member exactly for "constructor" or "__proto__" otherwise |
| `MusicService.LookupAsWritten` | src/services/music-service.ts:55-58 | the lookup as written hits only for a known artist |
| `MusicService.LookupAsWrittenAgrees` | src/services/music-service.ts:55-58 | away from the inherited names the lookup as written and `Lookup` agree |
| `MusicService.ConstructorTitleHit` | src/services/music-service.ts:55-58 | for every known artist, title "constructor" returns an inherited member where `Lookup` misses |
| `Page.Interleave` | src/app/page.tsx:21-26 | the rendered trending list, fragment by fragment; its properties are the lemmas below |
| `Page.Fragment` | src/app/page.tsx:22-25 | one `Fragment`: the song's card, then an ad when (index + 1) mod 3 = 0; its properties are `Page.AdFollowsEveryThirdCard` and `Page.InterleaveLayout` |
| `Page.FragmentKey` | src/app/page.tsx:22 | the key `trending-${title}-${index}`; its partner is `Page.FragmentKeysDistinct` |
| `Page.CardsInOrder` | src/app/page.tsx:21-23 | the cards show the trending songs in list order, none dropped or added |
| `Page.AdsCount` | src/app/page.tsx:21-26 | n songs give exactly n div 3 ads |
| `Page.InterleaveLayout` | src/app/page.tsx:21-26 | card i stands at position i + i div 3, with an ad right after each card where (i + 1) mod 3 = 0 |
| `Page.AdFollowsEveryThirdCard` | src/app/page.tsx:24 | an ad follows the card at index i exactly when (i + 1) mod 3 = 0 |
| `Page.CardPositionOrder` | src/app/page.tsx:21-26 | cards stand in the list in the order of their indexes, in both directions |
| `Page.EveryPositionNearACard` | src/app/page.tsx:21-26 | the card positions leave a gap only at every fourth position (p mod 4 = 3), whose next position holds the next card |
| `Page.NoLeadingOrAdjacentAds` | src/app/page.tsx:21-26 | the list never starts with an ad and never has two ads side by side |
| `Page.FragmentKeysDistinct` | src/app/page.tsx:22 | fragment keys of different indexes differ, whatever the titles |

## Left out

- JavaScript string lengths count UTF-16 code units, and here a `string` is a sequence of Unicode scalar values. The form's `min(3)` check (src/components/search-form.tsx:23) can therefore differ: two copies of U+1D11E are four code units, so the browser accepts them, while the model sees two characters and rejects them. The action's `min(1)` checks agree in both counts, since a non-empty string has at least one unit and one scalar.
- `Text.ToLower`: lower-cases the ASCII capitals A to Z only, because full Unicode case mapping is not part of this model. JavaScript's `toLowerCase` also maps other capitals, some of them to ASCII: U+212A KELVIN SIGN becomes 'k'. So artist "\u212Aendrick Lamar" with title "Not Like Us" is a hit in the code and a fallback in the model.
- The AI flows `detectBpmAndKey`, `generateAlbumArt`, `generateSongDescription` and `getTrendingSongs` are not part of this model. Each call is given by the outcome it settles with. The OAuth token cache, the key formatting and the duration formatting live in those flows and are left out with them.
- `process.env.NEXT_PUBLIC_SPOTIFY_CLIENT_ID` is an input, `None` when unset. The `console` logging is not modelled.
- `Promise.allSettled` runs its analyses concurrently. It is modelled as one outcome per song, in list order.
- `Math.random` becomes a draw of the three integers its `Math.floor(...)` expressions can produce. No floating point is involved.
- React rendering, `useSearchParams`, `router.push` and `encodeURIComponent` are not modelled. A navigation is recorded as the query it carries, before URL encoding. The 500 ms `setTimeout` is a pending-timer count that `LoadingTimerFires` decrements.
- `MusicService.LookupAsWritten` models the plain-object read at the title level only. An artist named "constructor", "__proto__" and the like also reaches inherited members of `Object.prototype`, but this is not modelled.
- `SearchHandler.FailedSearchToast`: the call from the client component to the `'use server'` action is a direct call here. In a production build React replaces a server action's error message with its own fixed text before it reaches the client. So the toast carries the action's own message only in a development build. It is never the unknown-error text, because the value that arrives is still an `Error`.
- `SearchForm.SearchForm.HandleSubmit`: that a submission leaves the form submitted even after `onSubmit` reset it follows react-hook-form's `handleSubmit`, which sets `isSubmitted` after `onSubmit` returns. That library is not part of this model.
- The handler does not guard against a slower earlier search settling after a later one. The effects are modelled one at a time, so that interleaving is not represented.
- `getTrendingSongsAction` rethrows a failed list fetch (actions.ts:84-87), and the home page (page.tsx:12) has no `catch` around it. What the page shows then is not modelled.
- The song page `src/app/song/[artist]/[title]/page.tsx` calls the action with `includeDescription` true. Its rendering, the legal page, the layout, the header, the footer, the cards, the skeletons, the ad banners, `src/next.config.ts` and `src/ai/dev.ts` are presentational or configuration code and are not modelled.

## Findings

| source | as written | input that shows it | evidently intended | confidence | as-written member | corrected member |
|---|---|---|---|---|---|---|
| src/services/music-service.ts:55-57 | `artistSongs[title]` reads any property of a plain object, inherited ones included, and any truthy value counts as a hit | artist "Hozier", title "constructor": `Object.prototype.constructor` (a function) is returned in place of a song record (`MusicService.ConstructorTitleHit`) | only the table's own entries are hits; any other title falls back to a random record | high, not executed | `MusicService.LookupAsWritten` | `MusicService.Lookup` |
