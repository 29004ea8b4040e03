# JioSaavn music panel — a Dafny model

A React panel shows music recommendations and search results for an "emotion" label.
The results come from a music catalog service. This project models the panel's logic
and proves properties of it:

- **Duration labels** (`Duration`). `formatDuration` turns whole seconds into
  `minutes:seconds`. The seconds are zero-padded to two digits, and there is no hour
  component. The integer `toString()` (for integers a JavaScript number holds exactly) and
  the `padStart` it relies on are modelled too.
  `ParseDuration` reads a label back, and the round trips are proved in both directions.
- **Blank queries** (`Text`). The search handler's `!searchQuery.trim()` test uses
  ECMAScript `trim()` and its full whitespace set.
- **The play button** (`Playback`). `handlePlayTrack` chooses between playing the preview
  and opening the catalog link. The choice is returned as an `Action` value.
- **The panel's state machine** (`PanelSpec`, `PanelController`). The seven state
  fields are the fields of class `Panel`. The tab click, the query edit,
  `loadEmotionRecommendations` and `handleSearch` are methods on it. Each handler is
  split at its `await`: a Begin method runs up to the request and a Complete method
  runs the try, catch and finally blocks. Each method states its whole new state and
  ties it to a step function on the `PanelState` value. Lemmas about runs of events
  (`Run`) state what holds across any sequence of handlers.

The music service is not called. Whether it is configured is a `configured: bool`
parameter. How a handler's `try` block ends is an `Outcome`, given as a parameter:
`Ok(payload)` when the request answers and nothing after it throws, `Err` when the block
throws, whether in the request or, for the loader, while converting the answer's tracks
(JioSaavnMusicPlayer.tsx:86-99). The service's `convertToTrack` is the function-value parameter `convert`.
The component's `currentEmotion` prop is the parameter `emotion`.

An unconfigured service is not a precondition of loading recommendations. The loader
sets the configuration message and returns (JioSaavnMusicPlayer.tsx:78-81), and the model
keeps that error path.

## Model

| member | source | states |
|---|---|---|
| Duration.NatToDecimal | JioSaavnMusicPlayer.tsx:126 | An integer's decimal form is non-empty, all digits, with no leading zero unless it is "0", and is one character exactly when the value is below ten |
| Duration.DecimalValueOfNatToDecimal | JioSaavnMusicPlayer.tsx:126 | Reading the decimal form back gives the number again |
| Duration.NatToDecimalOfDecimalValue | JioSaavnMusicPlayer.tsx:126 | Every canonical digit string is the decimal form of its value, so the minutes field holds any canonical numeral |
| Duration.PadStart | JioSaavnMusicPlayer.tsx:126 | `padStart` gives the larger of the width and the length, keeps the string as its suffix and fills the front with the pad character |
| Duration.SecondsFieldIsTwoDigits | JioSaavnMusicPlayer.tsx:125-126 | The padded seconds field is always exactly the two digits of `seconds % 60`; padding adds one '0' below ten and nothing otherwise |
| Duration.FormatDuration | JioSaavnMusicPlayer.tsx:123-127 | `formatDuration` itself; its properties are stated by FormatDurationShape, ParseFormatRoundTrip, FormatParseRoundTrip and FormatDurationInjective |
| Duration.FormatDurationShape | JioSaavnMusicPlayer.tsx:123-127 | The label is the decimal of `seconds / 60`, then ":", then the two digits of `seconds % 60`; minutes are not capped, so there is no hour rollover |
| Duration.ParseFormatRoundTrip | JioSaavnMusicPlayer.tsx:123-127 | Parsing a label gives back the seconds, i.e. `mins * 60 + secs == seconds` |
| Duration.FormatParseRoundTrip | JioSaavnMusicPlayer.tsx:123-127 | Every label that parses, with a canonical minutes field, is the label of its parsed value |
| Duration.FormatDurationInjective | JioSaavnMusicPlayer.tsx:123-127 | Two different durations never get the same label |
| Duration.FormatDurationExamples | JioSaavnMusicPlayer.tsx:123-127 | 0 is "0:00", 65 is "1:05" and 3661 is "61:01" |
| Text.Trim | JioSaavnMusicPlayer.tsx:106 | `trim()` gives a contiguous part of the query that has only whitespace around it and no whitespace at either end |
| Text.TrimEmptyIffBlank | JioSaavnMusicPlayer.tsx:106 | Trimming leaves nothing exactly when every character of the query is whitespace |
| Playback.ChoosePlayAction | JioSaavnMusicPlayer.tsx:129-142 | The preview is played exactly when the preview URL is present and non-empty; otherwise the action is the same as the external-link button on the track's catalog link |
| Playback.OpenInJioSaavn | JioSaavnMusicPlayer.tsx:140-142 | `handleOpenInJioSaavn`: opens the given URL in a new tab; ChoosePlayAction's third ensures states that the play button without a preview does the same |
| PanelSpec.StartLoad | JioSaavnMusicPlayer.tsx:78-84 | Abstract effect of the loader up to the fetch; Panel.BeginLoad's contract states it field by field |
| PanelSpec.FinishLoad | JioSaavnMusicPlayer.tsx:86-102 | Abstract effect of the loader's try, catch and finally; Panel.CompleteLoad's contract states it field by field |
| PanelSpec.Load | JioSaavnMusicPlayer.tsx:77-103 | One whole loader run; the run lemmas below and Panel.LoadEmotionRecommendations state its properties |
| PanelSpec.StartSearch | JioSaavnMusicPlayer.tsx:106-109 | Abstract effect of the search handler up to the request; Panel.BeginSearch's contract states it field by field |
| PanelSpec.FinishSearch | JioSaavnMusicPlayer.tsx:111-120 | Abstract effect of the search handler's try, catch and finally; Panel.CompleteSearch's contract states it field by field |
| PanelSpec.Search | JioSaavnMusicPlayer.tsx:105-121 | One whole search handler run; BlankSearchesChangeNothing, the run lemmas and Panel.HandleSearch state its properties |
| PanelSpec.ConvertAll | JioSaavnMusicPlayer.tsx:89-91 | The converted tracks have the same length and order as the service's raw tracks, each converted for the current emotion |
| PanelSpec.TabChangesOnlyOnClickOrSearch | JioSaavnMusicPlayer.tsx:77-121 | Over any run of events without a tab click or a successful search, the active tab stays the same; loading recommendations never moves it |
| PanelSpec.LastClickDecidesTab | JioSaavnMusicPlayer.tsx:183 | After a click on a tab, that tab stays active until the next click or successful search |
| PanelSpec.RunStaysIdle | JioSaavnMusicPlayer.tsx:77-121 | Both handlers clear their flag in `finally`, so between handler runs neither `isLoading` nor `isSearching` is set |
| PanelSpec.RunKeepsKnownError | JioSaavnMusicPlayer.tsx:77-121 | The error shown is always absent or one of the three fixed messages |
| PanelSpec.LoadsLeaveSearchAlone | JioSaavnMusicPlayer.tsx:77-103 | Loading recommendations never changes the query, the search results, the searching flag or the tab |
| PanelSpec.OnlyLoadsChangeRecommendations | JioSaavnMusicPlayer.tsx:105-121 | Without a recommendation load, the recommendations and the loading flag stay as they were |
| PanelSpec.BlankSearchesChangeNothing | JioSaavnMusicPlayer.tsx:106 | Any number of searches on a blank query change no state at all |
| PanelController.Panel.constructor | JioSaavnMusicPlayer.tsx:59-68 | The panel starts not loading, with no error, empty results and query, not searching, on the recommendations tab |
| PanelController.Panel.SetTab | JioSaavnMusicPlayer.tsx:183 | A tab click sets the active tab and changes nothing else |
| PanelController.Panel.SetSearchQuery | JioSaavnMusicPlayer.tsx:209 | Typing sets the query and changes nothing else |
| PanelController.Panel.BeginLoad | JioSaavnMusicPlayer.tsx:78-84 | Without a configured service, only the error changes (to the configuration message) and no fetch is issued; otherwise loading starts and the error is cleared |
| PanelController.Panel.CompleteLoad | JioSaavnMusicPlayer.tsx:86-102 | On success the recommendations become the converted tracks and the playlists verbatim; on failure they are unchanged and the error is the fixed message; loading ends false either way; search state and tab are untouched |
| PanelController.Panel.LoadEmotionRecommendations | JioSaavnMusicPlayer.tsx:77-103 | The whole loader: the fetch is issued exactly when configured, and the new state for each of the three outcomes is stated field by field |
| PanelController.Panel.BeginSearch | JioSaavnMusicPlayer.tsx:106-109 | A blank query sends nothing and changes nothing; otherwise the untrimmed query is sent, searching starts and the error is cleared |
| PanelController.Panel.CompleteSearch | JioSaavnMusicPlayer.tsx:111-120 | On success the results are exactly the returned list and the tab is search; on failure results and tab are unchanged and the error is "Search failed. Please try again."; searching ends false; recommendations and loading are untouched |
| PanelController.Panel.HandleSearch | JioSaavnMusicPlayer.tsx:105-121 | The whole search handler: the new state for a blank query, a success and a failure, stated field by field |

## Left out

- Rendering, CSS classes and icons (JioSaavnMusicPlayer.tsx:144-407) only display the state; they are not modelled.
- The music service module (`../services/jiosaavnService`) is not part of this model. Its answers are parameters, and `convertToTrack` is the parameter `convert`.
- `convert` is total: a loader run in which the fetch answers but reading `result.tracks` or a `convertToTrack` call throws (JioSaavnMusicPlayer.tsx:89-91) is the `Err` outcome, which leaves the recommendations unchanged and sets the load-failed message, as the `catch` at JioSaavnMusicPlayer.tsx:97-99 does.
- The `useEffect` that reloads recommendations when `isVisible` or `currentEmotion` changes (JioSaavnMusicPlayer.tsx:71-75) is React scheduling, so it is not modelled. As a result, "one load per emotion change" is not stated.
- `new Audio(...).play()` and `window.open` (JioSaavnMusicPlayer.tsx:132-141) are browser side effects. The model returns an `Action` value instead.
- `console.error` logging (JioSaavnMusicPlayer.tsx:98, 116) is diagnostics only.
- Each handler runs atomically, and every request settles. Overlapping requests, stale responses overwriting newer state, and a request that never settles (which would leave `isLoading` or `isSearching` set for good, JioSaavnMusicPlayer.tsx:100-101, 118-119) are not modelled; PanelSpec.RunStaysIdle relies on every request settling.
- Duration.FormatDuration: takes a `nat`. The JavaScript `number` behaviour for negative or fractional seconds, and for values above 2^53 (lost precision, and exponential `toString()` output such as "1e+21" from 10^21 on), is floating-point semantics and is not modelled.
- The `onClose` callback and the `isVisible` early return (JioSaavnMusicPlayer.tsx:144) are not modelled.
