# Search bar of the weather app's root layout

This project models the search bar at the top of the weather app's root layout in Dafny. There are three parts:

- **The suggestion label.** The text shown for a city found by the geocoding service. It is the city's name, region and country. Missing or empty parts are dropped and the rest are joined with `", "`.
- **The suggestion state machine of the `TopBar` component.**
  - Typing, focusing, submitting and the keyboard closing decide whether the dropdown is visible.
  - Every change of the search text re-runs an effect. A trimmed text shorter than two UTF-16 code units clears the suggestions. A longer one schedules a lookup 250 ms later.
  - When the timer fires, loading starts and the request goes out. The answer sets the suggestions. A non-ok answer or an error clears them; an abort leaves them as they are. In every case loading ends.
  - The effect's cleanup aborts the request and clears the timer, so only the latest text's lookup can change anything.
  - Picking a suggestion puts its label in the search field and hides the dropdown.
- **`recordCurrentPosition` of the root layout.** It asks for the location permission and reads the position. It then writes one of three things into the search text: the coordinates, "Location permission denied" or "Location unavailable". If the permission request itself rejects, the function stops before writing anything. That request is outside the `try`, so the text stays as it was.

## Layout

- `wrappers.dfy`: `Option`.
- `utf16.dfy`: JavaScript's `String.prototype.length`. It counts UTF-16 code units, so a character outside the Basic Multilingual Plane (an emoji, say) counts as 2. The minimum query length of 2 is measured this way.
- `whitespace.dfy`: JavaScript's `String.prototype.trim` over the ECMAScript whitespace and line-terminator characters.
- `suggestion_label.dfy`:
  - the geocoding result;
  - `formatSuggestionLabel`;
  - a `Split` on `", "` that inverts the join.
- `suggestion_state.dfy`: the component's state as a value, with one function per event.
  - `Step` and `Run` replay a sequence of events and collect the queries sent.
  - An event-level invariant `Inv` is proved for every reachable state.
  - The debounce is proved: a burst of keystrokes sends at most one request, for the trimmed final text.
- `top_bar.dfy`: the component as a class. Four fields are the React state: `searchText`, `suggestionsVisible`, `suggestions` and `suggestionsLoading`. `generation` and `lookup` stand for the effect's pending timer and abort controller. Each method is one handler or effect step. Every method is proved to move the object's state exactly as the matching function of `suggestion_state.dfy` moves the value.
- `root_layout.dfy`: `recordCurrentPosition`. The platform's permission and position answers are parameters.

## How timers, requests and cancellation are modelled

- **The generation counter.** Every change of the search text runs the effect's cleanup and increments a generation counter. The timer firing and the request ending are events that carry the generation of the effect run that started them. An event of an older generation was cancelled by a cleanup (the timer cleared or the fetch aborted), so it changes nothing.
- **Aborting a request in flight.** The cleanup aborts the request. The model applies the request's AbortError path (suggestions kept, loading cleared) during that cleanup. In the program this path runs as a promise continuation, which happens before the next timer can fire.
- **State updates within one handler.** React applies all of a handler's updates together. The model applies them in order, which gives the same final state because each update writes a different piece of state.
- **Unchanged text.** Setting the search text to its current value does not re-run the effect. React skips that update.

## Behaviour the model makes visible

- **Old suggestions stay during the debounce.** When the text changes to another long-enough text, the old suggestions stay in the dropdown until the new lookup starts (`SuggestionState.SetSearchText`).
- **The geolocation messages trigger lookups.** "Location permission denied" and "Location unavailable" are written into the search text, so the bar schedules a geocoding lookup for them like for typed text (`RootLayout.DeniedTextIsLookedUp`, `RootLayout.UnavailableTextIsLookedUp`). Coordinates do too.

## Model

All source paths are in `medium_weather_app/src/app/_layout.tsx`.

| member | source | states |
|---|---|---|
| Utf16.Utf16Length | medium_weather_app/src/app/_layout.tsx:69 | the length in code units is at least the number of characters and at most twice it |
| Utf16.LengthCountsSurrogatePairs | medium_weather_app/src/app/_layout.tsx:69 | the length is the number of characters plus one for each character outside the Basic Multilingual Plane |
| Utf16.BmpLength | medium_weather_app/src/app/_layout.tsx:69 | for text inside the Basic Multilingual Plane the length is the number of characters |
| Utf16.AstralLength | medium_weather_app/src/app/_layout.tsx:69 | a single character outside the Basic Multilingual Plane has length 2 |
| Whitespace.IsWhitespace | medium_weather_app/src/app/_layout.tsx:67 | among ASCII characters, exactly space and TAB through CR are whitespace; every whitespace character lies in the Basic Multilingual Plane |
| Whitespace.SkipLeading | medium_weather_app/src/app/_layout.tsx:67 | the index it returns is past a run of whitespace starting at `from` and stops at the first non-whitespace character or the end |
| Whitespace.SkipTrailing | medium_weather_app/src/app/_layout.tsx:67 | the index it returns stays within `low..end`, has only whitespace from it to `end`, and the character before it is not whitespace |
| Whitespace.Trim | medium_weather_app/src/app/_layout.tsx:67 | the trimmed text is a slice of the input with only whitespace before and after it; it is empty exactly when the input is all whitespace; otherwise it neither starts nor ends with whitespace |
| Whitespace.TrimUnpadded | medium_weather_app/src/app/_layout.tsx:67 | a non-empty text that neither starts nor ends with whitespace is its own trim |
| Whitespace.TrimIdempotent | medium_weather_app/src/app/_layout.tsx:125 | trimming twice is trimming once |
| SuggestionLabel.KeepTruthy | medium_weather_app/src/app/_layout.tsx:37-39 | the filter keeps no more values than it is given, and every kept string is non-empty |
| SuggestionLabel.LabelParts | medium_weather_app/src/app/_layout.tsx:37-39 | at most three parts, none empty, and the name comes first whenever it is non-empty |
| SuggestionLabel.FormatSuggestionLabel | medium_weather_app/src/app/_layout.tsx:36-41 | the label is empty exactly when no part is kept, and starts with the name whenever the name is non-empty; `LabelPartsInOrder`, `LabelRoundTrip` and `FullLabel` pin it down |
| SuggestionLabel.Join | medium_weather_app/src/app/_layout.tsx:40 | joining no parts gives the empty text; otherwise the length is the parts' total length plus two characters for each separator |
| SuggestionLabel.SplitJoin | medium_weather_app/src/app/_layout.tsx:40 | splitting the joined text on `", "` gives back the parts, when every part is non-empty and has no comma |
| SuggestionLabel.LabelPartsInOrder | medium_weather_app/src/app/_layout.tsx:36-41 | the label's parts are the name, region and country in that order, each kept exactly when it is present and non-empty |
| SuggestionLabel.LabelRoundTrip | medium_weather_app/src/app/_layout.tsx:36-41 | when no field holds a comma, the label splits back into exactly the kept fields |
| SuggestionLabel.NameOnlyLabel | medium_weather_app/src/app/_layout.tsx:36-41 | with region and country missing or empty, the label is the name alone |
| SuggestionLabel.FullLabel | medium_weather_app/src/app/_layout.tsx:36-41 | with all three fields non-empty, the label is name, `", "`, region, `", "`, country |
| SuggestionLabel.EmptyLabel | medium_weather_app/src/app/_layout.tsx:36-41 | the label is empty exactly when every field is missing or empty |
| SuggestionState.Init | medium_weather_app/src/app/_layout.tsx:52-54 | at mount the text is empty, the dropdown hidden, there are no suggestions, nothing is loading, and the invariant holds |
| SuggestionState.Finish | medium_weather_app/src/app/_layout.tsx:84-99 | after the request, loading is off; a non-ok answer, a failure, or a body without results clears the list; results replace it; an abort keeps it; text and visibility are untouched |
| SuggestionState.Cleanup | medium_weather_app/src/app/_layout.tsx:102-105 | the cleanup cancels the pending lookup and retires the generation; suggestions, text and visibility are kept; loading stays on only if it was on with no request in flight |
| SuggestionState.LongEnough | medium_weather_app/src/app/_layout.tsx:69 | any text of two or more characters is long enough; a text that is not is at most one character long |
| SuggestionState.QueryEffect | medium_weather_app/src/app/_layout.tsx:66-76 | a trimmed text under two UTF-16 code units clears the list and loading with nothing scheduled; a longer one schedules a lookup of the trimmed text and changes nothing else |
| SuggestionState.SetSearchText | medium_weather_app/src/app/_layout.tsx:66-106 | an equal value changes nothing; a new value starts a new generation, stops loading, and either clears the list (short text) or schedules the trimmed text while keeping the old list; visibility is kept; the invariant is preserved |
| SuggestionState.ChangeText | medium_weather_app/src/app/_layout.tsx:123-126 | the text is set with the effect of `SetSearchText`, including its new generation, which cancels the pending timer; the dropdown is visible exactly when the trimmed value is non-empty; the invariant is preserved |
| SuggestionState.Focus | medium_weather_app/src/app/_layout.tsx:127 | the dropdown is visible exactly when the trimmed text is non-empty; nothing else changes |
| SuggestionState.Hide | medium_weather_app/src/app/_layout.tsx:128 | the dropdown is hidden; nothing else changes |
| SuggestionState.Select | medium_weather_app/src/app/_layout.tsx:108-111 | the text becomes the result's label with the effect of `SetSearchText`, and the dropdown is hidden; the invariant is preserved |
| SuggestionState.StartLookup | medium_weather_app/src/app/_layout.tsx:76-82 | only the current generation's pending timer starts loading and puts its query in flight; any other tick changes nothing; the invariant is preserved |
| SuggestionState.CompleteLookup | medium_weather_app/src/app/_layout.tsx:82-99 | only the current request in flight is finished; any other completion changes nothing; the list only ever changes through the request for the current trimmed text; the invariant is preserved |
| SuggestionState.Request | medium_weather_app/src/app/_layout.tsx:79-82 | only a timer tick of the current generation sends a query; a query sent from a reachable state is the current trimmed text and is at least two UTF-16 code units long |
| SuggestionState.Step | medium_weather_app/src/app/_layout.tsx:56-133 | every event handler and effect step preserves the invariant |
| SuggestionState.DropdownView | medium_weather_app/src/app/_layout.tsx:131-148 | the dropdown shows exactly when visible and either loading or holding suggestions; the loading row shows exactly when visible and loading; otherwise one label per suggestion, in order |
| SuggestionState.RunKeepsInv | medium_weather_app/src/app/_layout.tsx:52-111 | every state reached by any sequence of events satisfies the invariant: loading iff a request is in flight, a pending query is the current trimmed text, and a short text has no suggestions |
| SuggestionState.ShortQueryShowsNothing | medium_weather_app/src/app/_layout.tsx:69-73 | in a reachable state, a trimmed text under two code units shows no dropdown |
| SuggestionState.AstralCharacterIsLookedUp | medium_weather_app/src/app/_layout.tsx:67-76 | a new text made of one character outside the Basic Multilingual Plane schedules a lookup of itself |
| SuggestionState.NoTickSendsNothing | medium_weather_app/src/app/_layout.tsx:76-82 | a sequence of events without a timer tick sends no request, whatever else happens in it |
| SuggestionState.EditsSendNothing | medium_weather_app/src/app/_layout.tsx:76-100 | keystrokes alone send no request, and leave the last typed text in the field |
| SuggestionState.TickSends | medium_weather_app/src/app/_layout.tsx:76-82 | one timer tick sends the current trimmed text when it is its generation's pending lookup, and nothing otherwise |
| SuggestionState.DebouncedRequest | medium_weather_app/src/app/_layout.tsx:66-106 | after any burst of keystrokes one tick sends at most one request, only for the trimmed final text; the current generation's tick sends exactly that one when the final keystroke changed the text to a long-enough one |
| SuggestionState.LondonScenario | medium_weather_app/src/app/_layout.tsx:66-106 | typing "Lon", "Lond", "London" on a fresh bar and letting the timer fire sends one request, for "London" |
| TopBarComponent.TopBar.constructor | medium_weather_app/src/app/_layout.tsx:52-54 | the new component is in the initial state |
| TopBarComponent.TopBar.Finish | medium_weather_app/src/app/_layout.tsx:84-99 | the fields move as `SuggestionState.Finish` moves the state |
| TopBarComponent.TopBar.Cleanup | medium_weather_app/src/app/_layout.tsx:102-105 | the fields move as `SuggestionState.Cleanup` moves the state |
| TopBarComponent.TopBar.QueryEffect | medium_weather_app/src/app/_layout.tsx:66-76 | the fields move as `SuggestionState.QueryEffect` moves the state |
| TopBarComponent.TopBar.SetSearchText | medium_weather_app/src/app/_layout.tsx:66-106 | the fields move as `SuggestionState.SetSearchText` moves the state, keeping the invariant |
| TopBarComponent.TopBar.ChangeText | medium_weather_app/src/app/_layout.tsx:123-126 | the fields move as `SuggestionState.ChangeText` moves the state, keeping the invariant |
| TopBarComponent.TopBar.Focus | medium_weather_app/src/app/_layout.tsx:127 | the fields move as `SuggestionState.Focus` moves the state, keeping the invariant |
| TopBarComponent.TopBar.SubmitEditing | medium_weather_app/src/app/_layout.tsx:128 | the dropdown is hidden as in `SuggestionState.Hide`, keeping the invariant |
| TopBarComponent.TopBar.KeyboardDidHide | medium_weather_app/src/app/_layout.tsx:56-59 | the dropdown is hidden as in `SuggestionState.Hide`, keeping the invariant |
| TopBarComponent.TopBar.SelectSuggestion | medium_weather_app/src/app/_layout.tsx:108-111 | the fields move as `SuggestionState.Select` moves the state, keeping the invariant |
| TopBarComponent.TopBar.TimerFired | medium_weather_app/src/app/_layout.tsx:76-82 | the fields move as `SuggestionState.StartLookup` moves the state, and the query returned is the one `SuggestionState.Request` sends |
| TopBarComponent.TopBar.LookupFinished | medium_weather_app/src/app/_layout.tsx:82-99 | the fields move as `SuggestionState.CompleteLookup` moves the state, keeping the invariant |
| RootLayout.PositionText | medium_weather_app/src/app/_layout.tsx:161-179 | a rejected permission request gives no text; any status other than granted gives "Location permission denied"; a fix gives its coordinates; a failed fix gives "Location unavailable" |
| RootLayout.RecordCurrentPosition | medium_weather_app/src/app/_layout.tsx:161-179 | the position is asked for exactly when the permission is granted; a rejected permission request leaves the bar as it was; otherwise the outcome's text goes through the bar's `setSearchText`; visibility is unchanged and the invariant holds |
| RootLayout.UnpaddedTextIsLookedUp | medium_weather_app/src/app/_layout.tsx:66-76 | any new text of two or more code units without leading or trailing whitespace schedules a lookup of itself |
| RootLayout.DeniedTextIsLookedUp | medium_weather_app/src/app/_layout.tsx:164-167 | after any status other than granted, the bar schedules a geocoding lookup of "Location permission denied" |
| RootLayout.UnavailableTextIsLookedUp | medium_weather_app/src/app/_layout.tsx:176-178 | after a failed fix the bar schedules a geocoding lookup of "Location unavailable" |

## Left out

- Rendering: styles, icons, the layout constants, the tab navigator and the `key` of each row. `DropdownView` keeps only what the dropdown shows.
- Timers, `fetch` and `AbortController` are not modelled as such. Their callbacks and answers are events (`TimerFired`, `LookupFinished`) that may arrive in any order.
- The 250 ms debounce delay is not modelled. Time is not modelled; only the order of events is.
- The request URL, `encodeURIComponent` and the `count=6` parameter are not modelled. The model keeps only the trimmed query the request is for.
- The results limit is left to the service. The app does not cut the list it gets back to six entries, so the model does not bound it.
- Decoding the JSON body is not modelled. It is either a list of results, an absent `results` field, or a failure (`Outcome.Failed`).
- `Number.prototype.toFixed`: the coordinates text of a fix is taken as given.
- `recordCurrentPosition` runs as one step, applied when it ends. This is the same as the source, because its only effect is the final `setSearchText`; any event that happens while it awaits comes before that.
- The keyboard listener's subscription and removal are not modelled. Only its callback is (`KeyboardDidHide`).
- The mount effect that calls `recordCurrentPosition` once is not modelled separately. It is a call of `RecordCurrentPosition` on the bar's state when the call ends, which may follow edits made while it awaited.
- The geo button is not modelled as a separate event. `onGeoPress` is `recordCurrentPosition`, so each press of the button is a call of `RootLayout.RecordCurrentPosition`.
- The search-context provider and the forecast screens are not part of this model.
- Reverse geocoding, a placeholder for the location message, a loading flag for the position request and forecast decoding are not modelled, because this layout's code has none of them.
- `SuggestionLabel.GeocodingResult.name` is typed as always present, as its declaration says. A result without a name at run time is not modelled.
- Lone surrogates are not modelled. A JavaScript string may hold an unpaired UTF-16 surrogate, but a Dafny `char` is a Unicode scalar value and cannot, so `Utf16.Utf16Length` and `Whitespace.Trim` cover well-formed UTF-16 text only.
- `Whitespace.IsWhitespace` uses the ECMAScript whitespace set as fixed in the model. Any future change to the Unicode space-separator category is not tracked.
- `SuggestionLabel.KeepTruthy` only bounds the number of parts and says each is non-empty. Which fields are kept and in what order is proved in `SuggestionLabel.LabelPartsInOrder`.
