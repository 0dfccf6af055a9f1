# Weather lookup widget — a Dafny model

The widget lets a user type a city, fetches a seven-day forecast for it and
shows the days as a swipeable card carousel. This project models the
sequential logic behind it, away from React and JSX:

- **The weather context** (`Context`, context.dfy). The provider holds `data`,
  `loading` and `error`. `getWeather` first raises `loading` and clears
  `error`, then, when the HTTP call settles, either stores the body or the
  fixed message "Failed to fetch weather data. Please try again or check your
  API key.", lowering `loading` in both cases. An effect keyed on `city`
  starts a fetch whenever the city becomes a truthy value. The transitions
  are the functions `Start` and `Resolve` on the value `FetchState`; the class
  `WeatherStore` holds the fields and its methods `StartFetch`, `CompleteOk`,
  `CompleteFail`, `CityEffect` and `SetCity` are proved to perform exactly
  those transitions. A trace model (`Event`, `Run`) lets lemmas speak about
  interleavings. Each request remembers the city it was built for, and no
  completion looks at it: a late response for an older city overwrites newer
  state (`StaleResponseOverwrites`, `StaleFailureAfterSuccess`). This is the
  behaviour of the code and is kept, not repaired.
- **The forecast component `App` renders** (`SliderContainer`,
  slider_container.dfy): the condition-to-icon classifier, the `if` chain
  that picks one view (spinner, error panel, nothing, no-data notice,
  carousel), the rules for the navigation buttons and dots, and the effect
  that rewinds the slider to the first day when new data arrives.
- **The older duplicate component** (`Temp`, temp.dfy): its own classifier,
  proved to pick the same icon kind as the first on every input, and its
  view chain, which lacks the city check.
- **The city form** (`Form`, form.dfy): the constraints declared on the
  input (`required`, 2 to 50 characters, `[A-Za-z\s\-]+`, checked by the
  browser as in sections 4.10.5.3.1 and 4.10.5.3.6 of the WHATWG HTML Living
  Standard: the pattern must match the whole value and lengths count the raw
  value), `handleSubmit` (trim, then call `setCity` only with a non-empty
  value) and `handleClear` (null the city, then `clearWeather`).

Shared pieces: `Text` (substring containment as `includes`, ASCII
lower-casing, the ECMAScript white-space set, which `trim` strips and `\s`
matches, and `trim` itself), `Display` (icon and view datatypes, the keyword
priority table both classifiers follow, the dot row, the slider's
`currentSlide`/`loaded` state) and `Wrappers` (`Option`, `Result`).

The files as written do not fit together: the consumers read `city`,
`setCity` and `clearWeather` from the context, but the provider only exposes
`data`, `loading` and `error`, and `App` renders the provider without its
`city` prop. The model gives the store the `city` field and `SetCity` the
consumers expect; `clearWeather` is an operation whose effect on the fetch
state is supplied by the caller, as nothing in the sources defines it.

Consequences of the code a reader might not expect:

- `setCity(null)` leaves `data`, `loading` and `error` as they were, and a
  fetch in flight still lands.
- `data`, `loading` and `error` are three independent fields: `data` is kept
  while a new fetch is loading, and a stale failure arriving after a fresh
  success leaves both the new data and the error message set.
- Resubmitting the city whose fetch just failed starts no retry: `setCity`
  with the current value changes nothing, so the error message stays.
- The no-data notice is shown for missing data and missing `days` as well as
  for zero days.
- The component `App` renders shows nothing when the city is falsy and the
  store is neither loading nor holding an error. A fetch still in flight when
  the city is cleared keeps the spinner, and a late failure then shows the
  error panel.
- The form renders no validation message of its own (only the fetch-error
  alert): the browser's constraint check (`required`, `minLength`,
  `maxLength`, `pattern`) is the only validation and shows the browser's
  message, with the input's `title` added on a pattern mismatch. Two to fifty
  white-space characters pass that check and are then ignored by the submit
  handler; a single space fails `minLength`.

## Model

| member | source | states |
|---|---|---|
| `Context.Start` | src/Context.tsx:48-49 | no contract; the synchronous half of `getWeather`, specified by `TransitionEffects` and `RunConsistent` |
| `Context.Resolve` | src/Context.tsx:62-67 | no contract; the half of `getWeather` after the request settles, specified by `TransitionEffects`, `RunConsistent` and `LastCompletionWins` |
| `Context.TransitionEffects` | src/Context.tsx:47-68 | starting keeps `data`, sets `loading` and clears `error`; a completion clears `loading` and either replaces `data` (error untouched) or stores the fixed message (data untouched) |
| `Context.RunConsistent` | src/Context.tsx:47-69 | every interleaving of starts and completions keeps "loading implies no error" and "the only stored error is the fixed message" |
| `Context.RunAppend` | src/Context.tsx:47-69 | running a trace with one more event is one more step on the state the trace reached |
| `Context.LastCompletionWins` | src/Context.tsx:51-68 | after any trace, the last completion leaves `loading` false and writes its field, whichever request it belongs to (no request-id check) |
| `Context.StaleResponseOverwrites` | src/Context.tsx:47-75 | two fetches for different cities whose responses arrive out of order end with the older city's data shown |
| `Context.StaleFailureAfterSuccess` | src/Context.tsx:47-75 | a stale failure arriving after a fresh success leaves both the new data and the error message set |
| `Context.UseWeather` | src/Context.tsx:34-40 | fails with "useWeather must be used within a WeatherProvider" exactly when no provider value is present, and otherwise returns that value |
| `Context.WeatherStore.constructor` | src/Context.tsx:42-45 | initial state: no data, not loading, no error, the given city |
| `Context.WeatherStore.StartFetch` | src/Context.tsx:47-49 | performs `Start` on the fields, establishes the invariant, and returns a request for the current city |
| `Context.Mount` | src/Context.tsx:42-75 | mounting the provider yields the initial state with the given city, then starts a fetch for that city exactly when it is truthy; otherwise the state stays initial |
| `Context.WeatherStore.CityEffect` | src/Context.tsx:71-75 | starts a fetch exactly when the city is truthy; otherwise changes nothing |
| `Context.WeatherStore.SetCity` | src/Context.tsx:69-75 | stores the city; a fetch starts exactly when the value differs from the current one and is truthy, otherwise the fetch state is unchanged |
| `Context.WeatherStore.CompleteOk` | src/Context.tsx:62-63 | stores the body and clears `loading` whatever request completed; keeps the invariant |
| `Context.WeatherStore.CompleteFail` | src/Context.tsx:64-67 | stores the fixed message and clears `loading`, data untouched; keeps the invariant |
| `Context.WeatherStore.ClearWeather` | src/components/Form.tsx:21 | the fetch state becomes what the supplied `clearWeather` makes of it; the city is left alone |
| `Text.Lower` | src/components/SliderContainer.tsx:48 | the result has the input's length and each character is lower-cased |
| `Text.ContainsTransitive` | src/components/SliderContainer.tsx:57-59 | a string containing `m` contains everything `m` contains |
| `Text.SkipLeading` | src/components/Form.tsx:12 | the position found is the first one holding no white space; everything skipped is white space |
| `Text.SkipTrailing` | src/components/Form.tsx:12 | the end found follows the last character holding no white space; everything after it is white space |
| `Text.Trim` | src/components/Form.tsx:12 | no contract; `trim`, specified by `TrimSlice` and `TrimEmptyIffAllSpace` |
| `Text.TrimSlice` | src/components/Form.tsx:12 | `trim` returns a slice of the input that neither starts nor ends with white space, with only white space outside it |
| `Text.TrimEmptyIffAllSpace` | src/components/Form.tsx:12-14 | the trimmed value is empty exactly when the input is all white space |
| `Display.FirstMatch` | src/components/SliderContainer.tsx:49-62 | the first rule whose keywords occur gives the kind (first match wins); a non-cloud kind comes from such a rule with no earlier rule matching; with no rule matching the kind is `Cloud` |
| `Display.PriorityChain` | src/components/SliderContainer.tsx:49-56 | the priority table amounts to sun/clear, then rain/drizzle, then snow, then fog/mist, else cloud |
| `Display.Dots` | src/components/SliderContainer.tsx:213-224 | one dot per day; a dot is highlighted exactly when its index equals the current slide |
| `Display.OneDotHighlighted` | src/components/SliderContainer.tsx:217-221 | exactly one dot is highlighted when the current slide is a valid index, none otherwise |
| `Display.NavFor` | src/components/SliderContainer.tsx:184-225 | the buttons and dots appear exactly when the slider is created, its instance is set and there is more than one day |
| `Display.HasDays` | src/components/SliderContainer.tsx:91 | no contract; holds when data is present, has `days` and at least one day, the negation of the no-data test (also Temp.tsx:94), specified by the view guards of `SliderContainer.Render` and `Temp.Render` |
| `Display.CarouselOf` | src/components/SliderContainer.tsx:99-108 | the carousel shows the address and the days of the data, with the navigation for that many days |
| `Display.Slider.constructor` | src/components/SliderContainer.tsx:9-10 | the slider starts at slide 0, not yet created |
| `Display.Slider.SlideChanged` | src/components/SliderContainer.tsx:14-16 | the current slide becomes the index the slider reports |
| `Display.Slider.Created` | src/components/SliderContainer.tsx:17-19 | the slider is marked created |
| `SliderContainer.WeatherIcon` | src/components/SliderContainer.tsx:47-63 | no contract; `getWeatherIcon`, specified by `IconFollowsPriority`, `IconIgnoresCase`, `SunOverrides` and `PartlyCloudyBranchDead` |
| `SliderContainer.IconFollowsPriority` | src/components/SliderContainer.tsx:47-63 | the icon kind is the first matching row of the priority table on the lower-cased condition; no keyword gives `Cloud` |
| `SliderContainer.IconIgnoresCase` | src/components/SliderContainer.tsx:47-48 | two conditions differing only in letter case get the same icon |
| `SliderContainer.IconOfLowered` | src/components/SliderContainer.tsx:48 | lower-casing a condition first does not change its icon |
| `SliderContainer.SunOverrides` | src/components/SliderContainer.tsx:49-50 | a condition mentioning sun or clear is `Sun` whatever text surrounds it |
| `SliderContainer.PartlyCloudyBranchDead` | src/components/SliderContainer.tsx:57-60 | the partly-cloudy branch (blue cloud) is never taken for any condition |
| `SliderContainer.Render` | src/components/SliderContainer.tsx:69-97 | loading gives the spinner; else a truthy error the error panel with that text; else a falsy city nothing; else missing data, days or zero days the notice; else the carousel |
| `SliderContainer.RenderThroughLifecycle` | src/components/SliderContainer.tsx:69-97 | nothing before a city; spinner while fetching; the fixed message after a failure; after a success the carousel or the notice depending on the days |
| `SliderContainer.DataEffect` | src/components/SliderContainer.tsx:25-30 | new non-null data resets the current slide to 0; null data leaves it |
| `SliderContainer.RewoundCarouselHighlightsFirst` | src/components/SliderContainer.tsx:25-30 | after the rewind, a carousel with navigation highlights the first dot and only it |
| `Temp.WeatherIcon` | src/components/Temp.tsx:57-70 | no contract; this component's `getWeatherIcon`, specified by `Temp.IconFollowsPriority`, `Temp.IconIgnoresCase` and `IconAgreesWithSlider` |
| `Temp.IconFollowsPriority` | src/components/Temp.tsx:57-70 | the icon kind is the first matching row of the priority table on the lower-cased condition |
| `Temp.IconIgnoresCase` | src/components/Temp.tsx:57-58 | two conditions differing only in letter case get the same icon |
| `Temp.IconAgreesWithSlider` | src/components/Temp.tsx:57-70 | on every condition this classifier picks the same icon kind as the other component, although it has no cloud branches |
| `Temp.Render` | src/components/Temp.tsx:73-100 | loading gives the spinner; else a truthy error the error panel; else missing data, days or zero days the notice; else the carousel; never nothing |
| `Temp.RenderAgreesWithSlider` | src/components/Temp.tsx:93-100 | with a truthy city both components show the same view; the blank initial state shows the notice here |
| `Form.MatchesPatternIff` | src/components/Form.tsx:49 | the pattern matches the whole value exactly when it is non-empty and every character is a letter, white space or hyphen |
| `Form.Accepts` | src/components/Form.tsx:46-49 | no contract; the browser's constraint check (`required`, `minLength`, `maxLength`, `pattern`) on the raw value, specified by `AcceptsExactly` |
| `Form.AcceptsExactly` | src/components/Form.tsx:46-49 | the declared constraints accept exactly the raw values of 2 to 50 characters from the allowed set |
| `Form.SubmittedCity` | src/components/Form.tsx:11-16 | a value reaches `setCity` only trimmed and non-empty; nothing is passed for a missing entry or white space alone |
| `Form.SubmitOutcome` | src/components/Form.tsx:8-16 | no contract; the constraint check followed by `handleSubmit`'s trim and test, specified by `SubmittedCityShape`, `PaddedLetterSubmitted`, `BlankAcceptedThenIgnored` and `SingleLetterRefused` |
| `Form.SubmittedCityShape` | src/components/Form.tsx:12-16 | a submitted city is non-empty, at most 50 allowed characters, without white space at its ends, and occurs in what was typed |
| `Form.PaddedLetterSubmitted` | src/components/Form.tsx:12-16 | "  a" passes the declared constraints and is submitted as "a", shorter than the minimum length |
| `Form.BlankAcceptedThenIgnored` | src/components/Form.tsx:14-16 | "   " passes the declared constraints and then reaches no `setCity` |
| `Form.SingleLetterRefused` | src/components/Form.tsx:47 | "a" is refused by the minimum length, so nothing is submitted |
| `Form.HandleSubmit` | src/components/Form.tsx:8-17 | an empty trimmed value leaves the store unchanged; otherwise the city is set and a fetch starts exactly when it differs from the current one |
| `Form.ResubmitAfterFailure` | src/components/Form.tsx:8-17 | after the current city's fetch fails, submitting that same city again starts no request; the error message and the old data remain and `loading` stays false |
| `Form.HandleClear` | src/components/Form.tsx:19-23 | the city becomes null, so the clear button disappears, and the fetch state is what `clearWeather` makes of it |
| `Form.ClearButtonShown` | src/components/Form.tsx:62 | the clear button is shown exactly when the city is truthy |
| `Form.ErrorBanner` | src/components/Form.tsx:32-36 | the alert shows the error text exactly when it is truthy |
| `Form.BannerFollowsFetch` | src/components/Form.tsx:32-36 | the alert is hidden once a fetch starts, shows the fixed message after a failure and is unchanged by a success |

The navigation rule of the older component (src/components/Temp.tsx:190 and
218-230) is the same expression as in the other component and is modelled by
the same `Display.NavFor` and `Display.Dots`; its `currentSlide` and `loaded`
state (src/components/Temp.tsx:26-36) by the same `Display.Slider`. That
component has no effect that rewinds the slider on new data.

## Left out

- The HTTP request (axios, the weather-service URL with the city put into
  its path unescaped, the API key from the environment): network I/O through
  a foreign library. Its result is the abstract `Outcome`, `Ok(body)` or
  `Failed`; the `console.error` call on failure is dropped.
- src/Api.tsx: an unused wrapper around the same network call. src/App.tsx:
  component wiring only.
- The slider library: looping, snapping, animation, `prev`, `next`,
  `moveToIdx` and the index it reports are foreign calls; whether its
  instance is set (`instanceRef.current`) is the `ready` parameter.
- `SliderContainer.DataEffect`: React runs the effect when the `data`
  reference changes; the model runs it for each data value it is given. The
  `moveToIdx(0)` call it makes is a foreign call and is not modelled.
- Rounding of temperatures and wind speed, and date and time formatting
  through `Date` and the locale functions: floating point and locale
  behaviour.
- JSX markup, CSS classes other than the icon colours, icon components, and
  the DOM `form.reset()` call in `handleClear`.
- React scheduling: effect timing, batching of the two state updates of a
  completion, StrictMode double invocation, and any interleaving beyond the
  start and complete steps.
- `Text.Lower`: `toLowerCase` lower-cases all of Unicode; the model
  lower-cases ASCII letters only.
- `Form.Accepts`: a text input's value never holds line feeds or carriage
  returns (the browser strips them); the validator is stated for any string.
- A city of `undefined` (the prop `App` does not pass) and `null` are both
  `None`.
- `Context.WeatherStore.ClearWeather`: no source defines `clearWeather`; its
  effect on the fetch state is a function supplied by the caller, assumed
  not to change the city.
