# Weather widget: a Dafny model

This project models the logic of the `WeatherWidget` React component
(`src/components/ui/weather-widget.tsx`). The component has a search form
that asks a weather provider for current conditions. It shows a temperature
sentence, a condition sentence, the place name and a glyph, and it has a
light/dark theme toggle.

The model has three modules:

- `Text` (`text.dfy`) models the two string built-ins the component relies on:
  - `String.prototype.trim` is modelled as `Trim`, built from `TrimStart` and
    `TrimEnd`. `TrimStartSplits`, `TrimEndSplits`, `TrimTight` and `TrimBlank`
    state what each part removes and keeps. Two lemmas pin `Trim` down
    completely. `TrimOfPadded` says that trimming whitespace-padded tight text
    gives that text back. `TrimSplit` says that every string is its trimmed form
    padded with whitespace.
  - `toLowerCase` is modelled as `Lower`, which folds the ASCII letters A-Z.
- `Advice` (`advice.dfy`) holds the pure presentation mappers:
  - `getTemperatureMessage` is modelled as `TemperatureMessageFor`, with `Classify` for
    the five threshold bands.
  - `getWeatherMessage` is modelled as `WeatherMessage`.
  - `getAnimation` is modelled as `Animation`.

  The mappers return small datatypes (band, advisory, icon), not formatted strings.
- `Widget` (`widget.dfy`) holds the component state and its handlers:
  - The five state hooks are collected in the value `UiState`.
  - The submit handler is split at its `await` into `BeginSearch` (validation,
    start loading, clear error) and `SettleSearch` (store the outcome, end
    loading). `SearchResult` is one uninterrupted search.
  - `Toggled` and `WithLocation` model the toggle and the input's change handler.
  - `Render` gives what the page shows, as data.
  - The class `WeatherWidget` has the hook values as fields. Its methods `Search`,
    `ToggleTheme` and `SetLocation` update those fields in the order the source
    calls the setters. Each method is proved to produce exactly the state given by
    the pure transition, and to keep the invariant `Settled`:
    - nothing is loading;
    - a summary and an error are never both present;
    - any summary is in Celsius.

The network request and the JSON parse become a `FetchOutcome` argument:
`Ok(temperature, text, name)` or `Fail`. `Search` returns the query it would
send, or `None` when it sends nothing.

Two facts about the component that the model makes precise:

- The state can hold an error and a summary at once only when two searches
  overlap. `SearchLeavesExactlyOne` proves that every search run to completion
  leaves exactly one of the two, whatever the state it started from.
  `OverlappingSearchesShowBoth` exhibits an interleaving of two searches that
  leaves both.
- A response missing `temp_c`, `text` or `name` does not throw: the field is
  stored as `undefined`. Only a missing `current`, `current.condition` or
  `location` object throws and leads to the not-found error. The model's `Ok`
  always carries values, so the `undefined` case is not represented.

## Model

| member | source | states |
|---|---|---|
| `Text.TrimStart` | src/components/ui/weather-widget.tsx:25 | the leading-whitespace strip of `trim`; what it drops and keeps is stated by `TrimStartSplits` and `TrimStartDropsPrefix` |
| `Text.TrimEnd` | src/components/ui/weather-widget.tsx:25 | the trailing-whitespace strip of `trim`; what it drops and keeps is stated by `TrimEndSplits` and `TrimEndDropsSuffix` |
| `Text.Trim` | src/components/ui/weather-widget.tsx:25 | `location.trim()`, both strips in turn; pinned down by `TrimOfPadded` and `TrimSplit`, with `TrimTight` and `TrimBlank` |
| `Text.TrimStartDropsPrefix` | src/components/ui/weather-widget.tsx:25 | a whitespace-only prefix in front of text not starting with whitespace is dropped exactly |
| `Text.TrimEndDropsSuffix` | src/components/ui/weather-widget.tsx:25 | a whitespace-only suffix behind text not ending with whitespace is dropped exactly |
| `Text.TrimStartSplits` | src/components/ui/weather-widget.tsx:25 | the input is a whitespace-only prefix followed by the start-trimmed text, which does not start with whitespace |
| `Text.TrimEndSplits` | src/components/ui/weather-widget.tsx:25 | the input is the end-trimmed text followed by a whitespace-only suffix, and the end-trimmed text does not end with whitespace |
| `Text.TrimTight` | src/components/ui/weather-widget.tsx:25 | the trimmed location is no longer than the input and has no whitespace at either end |
| `Text.TrimBlank` | src/components/ui/weather-widget.tsx:25-26 | the trimmed location is empty exactly when the input is all whitespace or empty (the blank-input test) |
| `Text.TrimOfPadded` | src/components/ui/weather-widget.tsx:25 | trimming whitespace + tight core + whitespace gives exactly the core |
| `Text.TrimSplit` | src/components/ui/weather-widget.tsx:25 | every input is its trimmed form with whitespace-only text on each side |
| `Text.TrimIdempotent` | src/components/ui/weather-widget.tsx:25 | trimming the trimmed location again changes nothing |
| `Text.Lower` | src/components/ui/weather-widget.tsx:71 | lower-casing keeps length and order and folds each character |
| `Text.LowerMatchesLiteral` | src/components/ui/weather-widget.tsx:71-73 | a description lower-cases to a lower-case key exactly when it spells the key with each letter in either case |
| `Advice.TemperatureMessageFor` | src/components/ui/weather-widget.tsx:59-68 | unit "C" gives an advice sentence, any other unit gives the bare reading with that unit; the reading is carried through unchanged |
| `Advice.Classify` | src/components/ui/weather-widget.tsx:60-65 | the first-match if-chain over the thresholds 0, 10, 20 and 30; the band it returns is one whose range holds the reading |
| `Advice.ClassifyExact` | src/components/ui/weather-widget.tsx:60-65 | the band chosen by the first-match if-chain is `b` exactly when the reading lies in `b`'s range: below 0, [0,10), [10,20), [20,30), 30 and above, so the bands are exhaustive and mutually exclusive |
| `Advice.ClassifyMonotone` | src/components/ui/weather-widget.tsx:60-65 | a warmer reading never gets a colder band |
| `Advice.CelsiusMessageBand` | src/components/ui/weather-widget.tsx:60-65 | for unit "C" the message is the advice of the reading's own band |
| `Advice.WeatherMessage` | src/components/ui/weather-widget.tsx:70-76 | sunny advisory exactly when the lower-cased description is "sunny", rain advisory exactly when it is "rain", otherwise the description unchanged |
| `Advice.Animation` | src/components/ui/weather-widget.tsx:84-93 | sun glyph exactly for "sunny", umbrella glyph exactly for "rain" (case-insensitively), otherwise none |
| `Advice.MessageText` | src/components/ui/weather-widget.tsx:72-74 | the sentence shown for each condition message: the two fixed advisories, or the description itself; used by `ShownSunnyText` and `ShownRainText` |
| `Advice.AnimationMatchesMessage` | src/components/ui/weather-widget.tsx:70-93 | the glyph and the advisory agree: sun with sunny, umbrella with rain, no glyph with pass-through |
| `Advice.SelectorsIgnoreCase` | src/components/ui/weather-widget.tsx:70-93 | descriptions that lower-case alike get the same glyph and the same advisory |
| `Advice.RainInAnyCase` | src/components/ui/weather-widget.tsx:71-73 | "rain" in any mix of cases gets the umbrella advisory and glyph |
| `Advice.SunnyInAnyCase` | src/components/ui/weather-widget.tsx:71-72 | "sunny" in any mix of cases gets the sunny advisory and glyph |
| `Advice.ShownSunnyText` | src/components/ui/weather-widget.tsx:70-75 | the shown sentence is the sunny advisory exactly when the description is "sunny" in any case, or is already that sentence |
| `Advice.ShownRainText` | src/components/ui/weather-widget.tsx:70-75 | the shown sentence is the rain advisory exactly when the description is "rain" in any case, or is already that sentence |
| `Widget.BeginSearch` | src/components/ui/weather-widget.tsx:25-33 | the handler up to the request: blank input sets the error and clears the weather, other input starts loading and clears the error; stated by `BlankInputRejected`, `QueryIsTrimmedInput` and `LoadingOnlyWhileFetching` |
| `Widget.SettleSearch` | src/components/ui/weather-widget.tsx:35-56 | the handler after the request: the outcome is stored and loading ends; stated by `LoadingOnlyWhileFetching` and `SearchOutcomeShown` |
| `Widget.SearchResult` | src/components/ui/weather-widget.tsx:23-57 | one uninterrupted run of the handler; stated by `SearchOutcomeShown`, `SearchLeavesExactlyOne`, `SearchSettles` and `SearchKeepsInputAndTheme` |
| `Widget.Toggled` | src/components/ui/weather-widget.tsx:78-80 | the theme toggle on the state value; stated by `ToggleInvolution` |
| `Widget.WithLocation` | src/components/ui/weather-widget.tsx:115 | the input's change handler on the state value, storing the raw text; kept settled by `SettledIsInvariant` |
| `Widget.SummaryOf` | src/components/ui/weather-widget.tsx:123-138 | the weather block: temperature message, condition message, place and glyph of a record; stated by `SettledSummaryIsAdvice` and `ParisExample` |
| `Widget.Render` | src/components/ui/weather-widget.tsx:95-143 | the page as data: error line, weather block, submit state and label, theme label; stated by `FailureView`, `ParisExample` and `ToggleOnlyRestyles` |
| `Widget.BlankInputRejected` | src/components/ui/weather-widget.tsx:25-30 | a blank input sends no request, sets the validation error, clears the weather and leaves loading, input and theme untouched |
| `Widget.QueryIsTrimmedInput` | src/components/ui/weather-widget.tsx:25-38 | a non-blank input sends one query, the trimmed input, which is non-empty, tight and a fixed point of trimming |
| `Widget.LoadingOnlyWhileFetching` | src/components/ui/weather-widget.tsx:32-56 | loading is on and the error cleared while the request is outstanding, and loading is off after it settles, whatever the outcome |
| `Widget.SearchOutcomeShown` | src/components/ui/weather-widget.tsx:32-56 | success stores the response fields with unit "C" and no error; failure stores the not-found error and no weather |
| `Widget.SearchLeavesExactlyOne` | src/components/ui/weather-widget.tsx:23-57 | from any state, a completed search leaves exactly one of weather and error set |
| `Widget.SearchSettles` | src/components/ui/weather-widget.tsx:23-57 | after an uninterrupted search from a settled state, nothing is loading and exactly one of weather and error is set |
| `Widget.SearchKeepsInputAndTheme` | src/components/ui/weather-widget.tsx:23-57 | a search never changes the input text or the theme |
| `Widget.SettledIsInvariant` | src/components/ui/weather-widget.tsx:17-21 | the initial state is settled, and search, toggle and input change keep it settled |
| `Widget.ToggleInvolution` | src/components/ui/weather-widget.tsx:78-80 | the toggle flips the theme, changes no other field, and two toggles restore the state |
| `Widget.OverlappingSearchesShowBoth` | src/components/ui/weather-widget.tsx:23-57 | with two overlapping searches, the first to settle ends loading while the second is outstanding, and fail-then-succeed leaves both an error and a summary |
| `Widget.SettledSummaryIsAdvice` | src/components/ui/weather-widget.tsx:123-128 | in a settled state the summary always shows Celsius advice for the reading's band (the bare-reading branch is never shown), and submit is enabled |
| `Widget.ParisExample` | src/components/ui/weather-widget.tsx:122-137 | a search for "Paris" answered with 22 and "Sunny" shows no error, the pleasant band for 22, the sunny advisory, "Paris" and the sun glyph |
| `Widget.FailureView` | src/components/ui/weather-widget.tsx:122-123 | a failed search shows the not-found error and no weather block |
| `Widget.ToggleOnlyRestyles` | src/components/ui/weather-widget.tsx:96-104 | toggling changes only the theme label on the page, and two toggles give back the same page |
| `Widget.WeatherWidget.constructor` | src/components/ui/weather-widget.tsx:17-21 | the hooks start as empty input, no weather, no error, not loading, light theme |
| `Widget.WeatherWidget.SetLocation` | src/components/ui/weather-widget.tsx:115 | the raw, untrimmed text is stored and nothing else changes |
| `Widget.WeatherWidget.Search` | src/components/ui/weather-widget.tsx:23-57 | the fields after the handler are exactly `SearchResult` of the fields before, the returned query is its request, the invariant holds again, and exactly one of weather and error is set |
| `Widget.WeatherWidget.ToggleTheme` | src/components/ui/weather-widget.tsx:78-80 | the fields after the toggle are the old ones with the theme flipped |

## Left out

- The HTTP request, the URL and its query string, the API key read from the environment, and `response.json()` (lines 36-48). These are foreign I/O and are replaced by the `FetchOutcome` argument.
- `console.error` (line 51): a diagnostic side effect only.
- `e.preventDefault()` (line 24): a browser event detail.
- Asynchrony. `WeatherWidget.Search` runs one search to completion. Overlap is described only on the pure transitions (`BeginSearch`, `SettleSearch`). The disabled submit button (line 118) is the page's own guard against overlap; `Render` records that the button is disabled while loading.
- JSX markup, Tailwind class strings (line 82 and lines 95-143) and the icon components. The page is reduced to the `View` record: error line, weather block, submit state and label, theme label.
- Response fields that are present but `undefined` (a missing `temp_c`, `text` or `name`). `Ok` always carries values.
- Advice.TemperatureMessageFor: returns the band and the reading, not the sentence text. JS number formatting inside the template strings is not modelled.
- Advice.TemperatureMessageFor: the reading is a `real`. JS `NaN`, `undefined` and infinities are not modelled. A `NaN` reading fails every comparison in the if-chain and would get the extreme-heat sentence.
- Text.Lower: folds only the ASCII letters A-Z. The full Unicode case mapping of `toLowerCase` is not modelled.
- Text.Trim: works on Unicode scalar values over a fixed whitespace set. JavaScript's UTF-16 code units are not modelled.
