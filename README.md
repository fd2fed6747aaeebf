# Parameter playground: a verified model of its parameter mapping, generation cycle and settings

The application lets a user explore how sampling parameters (temperature, top_p,
top_k, penalties, Mirostat, ...) change how a chat-completion endpoint rewrites a
text. This project models the logic inside its React components and its two
zustand stores:

- **Parameter catalogues** (`Grid.GridParameters`, `Playground.AllParameters`):
  each entry has a name, range, step, default and help text. The mount effect
  fills the parameter vector with the defaults (`Parameters.InitialValues`).
- **Rectangular grid** (`Grid`): the pointer is normalised to the unit square
  with y inverted. Each axis fraction is mapped linearly onto the range of the
  key assigned to that axis (`Mapping.MapValue`) and rounded to two decimals
  (`Mapping.Round2`). Exactly those two keys are written, and the pin goes back
  to screen percentages. Sliders write one key. Changing an axis changes only
  the selection.
- **Polygon playground** (`Playground`): two or five slots. The pointer's angle
  picks a sector `floor(f * N)` and the next slot `(i + 1) mod N`. The cosine and
  sine projections of the pointer, mapped from [-1, 1], give those two slots'
  values. A mode change resets a slot list of the wrong length, and choosing a
  slot's key replaces one list element.
- **Generation cycle** (`Adjuster`): text and parameter changes call the
  debounced generator only when the text is longer than three characters. When
  the delay elapses, the request is built: endpoint URL, bearer header, and a
  body with model, two messages and max_tokens, with the parameters spread in
  last. A successful answer moves the output and its parameters to "previous".
  A failure shows the placeholder "Error adjusting text" and moves nothing. The
  loading flag covers the request.
- **Settings** (`ApiSettings`, `SettingDialog`, `MagicBackground`): the store
  setters, the environment-based default base URL, the model-list fetch, and
  clear-all. The dialog keeps a local copy with `isChanged` dirty tracking,
  save, reset, clear-all and the store-to-local sync effect. There is also the
  background-visibility toggle.

Numbers are `real`s. `Round2` is ECMAScript's `toFixed(2)` rule (round the
magnitude half up, restore the sign) computed exactly, followed by `parseFloat`.
Nothing clamps, as in the code: range results hold only for pointer positions
on the surface. The polygon's projections `cos(angle) * distance` and
`sin(angle) * distance` are, in exact arithmetic, the pointer's offset from the
centre divided by half the width. `Playground.Projection` computes them that way.
Only the sector fraction `angle / 2π` is passed in, because it needs `atan2`.

React state is a class per component: its fields are the `useState` values and
its methods are the handlers. Each effect is its own method (`Mount`,
`ModeChanged`, `SyncFromStore`, `UpdateIsChanged`). Callers run these methods in
the order React runs them, as the client methods `SaveThenRender`,
`ClearThenRender` and `DragStaysInRange` do. A handler runs atomically, so the
values its closure captured are the current fields. HTTP responses and the
environment (`typeof window`, `OPENAI_API_BASE`) are parameters.

Three behaviours of the code shape the model:

- Slider values are stored as given. Nothing clamps, rounds or rejects them.
- The whole parameter vector is spread into the request body, in both modes.
- Parameter edits are not coalesced. Each `setCurrentParams` re-creates the
  debounced function, because `currentParams` is one of the dependencies of the
  effect that builds it. A call still pending on the old debounced function
  fires on its own. Only repeated text edits share one debounced function. The
  model keeps a single latest-call register (see Left out).

## Model

| member | source | states |
|---|---|---|
| Parameters.InitialValues | components/ToneChangerGrid.tsx:39-45 | the loop over the catalogue keys yields exactly the defaults vector: one entry per catalogue key, each equal to that entry's default |
| Parameters.DefaultsInRange | components/AdvancedParameterPlayground.tsx:45-51 | for a catalogue whose entries satisfy min <= default <= max, the defaults vector has every catalogue key and every value within its range |
| Parameters.SetOne | components/ToneChangerGrid.tsx:75 | `{...prev, [param]: value}` sets the key to the value and leaves every other key present and unchanged |
| Parameters.SetTwo | components/ToneChangerGrid.tsx:56-60 | the two-key merge changes only the two keys; the second key gets the second value, also when both keys are equal; the first gets the first value otherwise |
| Parameters.SetTwoInRange | components/AdvancedParameterPlayground.tsx:93-97 | merging two in-range values into an in-range vector keeps it in range |
| Mapping.MapValueEndpoints | components/ToneChangerGrid.tsx:79-81 | mapValue(inMin) = outMin and mapValue(inMax) = outMax |
| Mapping.MapValueMidpoint | components/AdvancedParameterPlayground.tsx:120-122 | the midpoint of the input range maps to the midpoint of the output range |
| Mapping.MapValueInRange | components/ToneChangerGrid.tsx:79-81 | an input in [inMin, inMax] with outMin <= outMax maps into [outMin, outMax] |
| Mapping.MapValueMonotone | components/AdvancedParameterPlayground.tsx:120-122 | for increasing ranges the map preserves order |
| Mapping.Round2Close | components/ToneChangerGrid.tsx:58-59 | two-decimal rounding moves a value by at most 0.005 |
| Mapping.Round2IsCents | components/ToneChangerGrid.tsx:58-59 | the rounded value is a whole number of hundredths |
| Mapping.Round2Fixed | components/AdvancedParameterPlayground.tsx:95-96 | a value that already has two decimals is returned unchanged |
| Mapping.Round2Monotone | components/AdvancedParameterPlayground.tsx:95-96 | rounding preserves order, across zero too |
| Mapping.Round2Between | components/ToneChangerGrid.tsx:58-59 | rounding a value between two two-decimal bounds stays between them, so rounding never leaves a parameter's range |
| Mapping.Round2Idempotent | components/ToneChangerGrid.tsx:58-59 | rounding twice equals rounding once |
| Grid.GridCatalogueValid | components/ToneChangerGrid.tsx:15-24 | every grid catalogue entry has min <= default <= max and step > 0, and the key order lists exactly the catalogue's keys |
| Grid.GridBoundsAreCents | components/ToneChangerGrid.tsx:15-24 | every grid range bound has at most two decimals |
| Grid.NormaliseInsideUnitSquare | components/ToneChangerGrid.tsx:50-51 | a pointer inside the bounding box normalises into [0,1] x [0,1] |
| Grid.NormaliseEdges | components/ToneChangerGrid.tsx:50-51 | y is inverted: the bottom-left corner normalises to (0, 0), the top-right corner to (1, 1) |
| Grid.AxisValueInRange | components/ToneChangerGrid.tsx:53-54 | an axis fraction in [0, 1] yields a mapped, rounded value within the axis parameter's range |
| Grid.AxisValueEdges | components/ToneChangerGrid.tsx:53-54 | fraction 0 yields the parameter's min, fraction 1 its max |
| Grid.GridUpdateFrame | components/ToneChangerGrid.tsx:56-60 | a grid sample changes only the X and Y keys; Y holds the Y value even when X and Y share a key |
| Grid.GridUpdateInRange | components/ToneChangerGrid.tsx:53-60 | a sample inside the surface keeps an in-range vector in range |
| Grid.GridCentreExample | components/ToneChangerGrid.tsx:50-59 | centre (0.5, 0.5) on temperature [0,2] and top_p [0,1] stores 1.00 and 0.50 |
| Grid.GridCornerExample | components/ToneChangerGrid.tsx:50-59 | the bottom-left corner stores temperature 0.00 and top_p 0.00 |
| Grid.PinAtPointer | components/ToneChangerGrid.tsx:68 | the pin (x*100, (1-y)*100) is the pointer's position in percent of the box from its top-left corner |
| Grid.SliderPositionAsWrittenLosesZero | components/ToneChangerGrid.tsx:173 | as written, a stored temperature of 0 puts the slider thumb at the default 0.7 |
| Grid.SliderPositionShowsStored | components/ToneChangerGrid.tsx:173 | the corrected thumb position is the stored value whenever one is stored, zero included, and agrees with the written form off zero |
| Grid.ToneChangerGrid.constructor | components/ToneChangerGrid.tsx:28-35 | the first render has temperature on X, top_p on Y, an empty vector and the pin at (50, 50) |
| Grid.ToneChangerGrid.Mount | components/ToneChangerGrid.tsx:39-45 | after the mount effect every catalogue key holds its default, so every value is in range |
| Grid.ToneChangerGrid.HandleGridChange | components/ToneChangerGrid.tsx:47-72 | the vector becomes the grid update of the old vector at the normalised pointer, the pin moves to the pointer, the axes stay, and the reported vector is the new one |
| Grid.ToneChangerGrid.HandleSliderChange | components/ToneChangerGrid.tsx:74-77 | only the slider's key changes, to exactly the given value, and the new vector is reported |
| Grid.ToneChangerGrid.SelectX | components/ToneChangerGrid.tsx:102 | only the X selection changes; no stored value changes |
| Grid.ToneChangerGrid.SelectY | components/ToneChangerGrid.tsx:110 | only the Y selection changes; no stored value changes |
| Grid.DragStaysInRange | components/ToneChangerGrid.tsx:47-60 | from an in-range vector, a sample inside the surface leaves every value in range and the axes unchanged |
| Playground.PlaygroundCatalogueValid | components/AdvancedParameterPlayground.tsx:15-28 | every playground catalogue entry has min <= default <= max and step > 0 |
| Playground.RepeatLastNDefaultIsMax | components/AdvancedParameterPlayground.tsx:25 | repeat_last_n's default equals its max, 64 |
| Playground.PlaygroundBoundsAreCents | components/AdvancedParameterPlayground.tsx:15-28 | every range bound and every range midpoint has at most two decimals |
| Playground.ModeSlotsSpec | components/AdvancedParameterPlayground.tsx:53-59 | after a mode change the slot list has the mode's length (5 or 2): a list of the right length is kept, any other is replaced by the mode's default list; applying it again changes nothing |
| Playground.SectorIndex | components/AdvancedParameterPlayground.tsx:71-72 | for f in [0,1), floor(f*N) lies in [0, N) |
| Playground.NextIndex | components/AdvancedParameterPlayground.tsx:73 | (i+1) mod N lies in [0, N), wraps from the last slot to the first, and differs from i when N >= 2 |
| Playground.ProjectionAtCentre | components/AdvancedParameterPlayground.tsx:64-69 | a pointer at the centre of the surface projects to (0, 0) |
| Playground.ProjectionInsideSquare | components/AdvancedParameterPlayground.tsx:63-69 | on the square surface every pointer inside the box projects into [-1,1] on both axes, corners included |
| Playground.SlotValueAtCentre | components/AdvancedParameterPlayground.tsx:78-91 | projection 0 gives exactly the midpoint of the parameter's range |
| Playground.SlotValueInRange | components/AdvancedParameterPlayground.tsx:78-91 | a projection in [-1, 1] gives a value within the parameter's range |
| Playground.PolygonUpdateFrame | components/AdvancedParameterPlayground.tsx:93-97 | a polygon sample changes only the sector slot's key and the next slot's key; the next slot's value wins when both hold the same key |
| Playground.PolygonUpdateInRange | components/AdvancedParameterPlayground.tsx:78-97 | projections in [-1, 1] keep an in-range vector in range |
| Playground.PolygonCentreExample | components/AdvancedParameterPlayground.tsx:71-97 | two slots temperature and top_p with the pointer at the centre give 1.00 and 0.50 in every sector |
| Playground.ReplaceSlot | components/AdvancedParameterPlayground.tsx:114-118 | replacing slot i keeps the list length, puts the key at i and keeps every other element |
| Playground.AdvancedParameterPlayground.constructor | components/AdvancedParameterPlayground.tsx:36-43 | the first render holds the mode's default slot list, an empty vector and the pin at (300, 300) |
| Playground.AdvancedParameterPlayground.Mount | components/AdvancedParameterPlayground.tsx:45-51 | after the mount effect every catalogue key holds its default, so every value is in range |
| Playground.AdvancedParameterPlayground.ModeChanged | components/AdvancedParameterPlayground.tsx:53-59 | the new mode is adopted and the slot list is adjusted as ModeSlots says, which keeps the list's length equal to the slot count |
| Playground.AdvancedParameterPlayground.HandleDecagonChange | components/AdvancedParameterPlayground.tsx:61-107 | the vector becomes the polygon update at the pointer's projections and sector, the pin moves to the pointer's offset in the box, and the reported vector is the new one |
| Playground.AdvancedParameterPlayground.HandleSliderChange | components/AdvancedParameterPlayground.tsx:109-112 | only the slider's key changes, to exactly the given value |
| Playground.AdvancedParameterPlayground.HandleParamSelect | components/AdvancedParameterPlayground.tsx:114-118 | the copied slot list with element i replaced becomes the selection |
| ApiSettings.InitialApiBaseUrlSpec | store/apiSettingsStore.ts:28-36 | the environment's URL is returned exactly when a window exists and it is set and starts with "http" (or it equals the local URL); otherwise http://localhost:11434/v1; the result always starts with "http" |
| ApiSettings.ApiSettingsStore.constructor | store/apiSettingsStore.ts:41-46 | the initial state has an empty key and model, no models, maxTokens 100, seed 1337 and the initial base URL |
| ApiSettings.ApiSettingsStore.SetApiKey | store/apiSettingsStore.ts:47 | only apiKey changes, to the value |
| ApiSettings.ApiSettingsStore.SetApiBaseUrl | store/apiSettingsStore.ts:48 | only apiBaseUrl changes, to the value |
| ApiSettings.ApiSettingsStore.SetModelName | store/apiSettingsStore.ts:49 | only modelName changes, to the value |
| ApiSettings.ApiSettingsStore.SetAvailableModels | store/apiSettingsStore.ts:50 | only availableModels changes, to the list |
| ApiSettings.ApiSettingsStore.SetMaxTokens | store/apiSettingsStore.ts:51 | only maxTokens changes, to the value |
| ApiSettings.ApiSettingsStore.SetSeed | store/apiSettingsStore.ts:52 | only seed changes, to the value |
| ApiSettings.ApiSettingsStore.FetchAvailableModels | store/apiSettingsStore.ts:53-66 | the request goes to {base}/models; an ok answer replaces the model list with its data; a non-ok status or no answer leaves the store unchanged and is returned as the error to re-throw |
| ApiSettings.ApiSettingsStore.ClearAllSettings | store/apiSettingsStore.ts:67-78 | all six fields return to their initial values |
| ApiSettings.ClearTwiceIsClearOnce | store/apiSettingsStore.ts:67-78 | clearing twice leaves the same state as clearing once |
| MagicBackground.MagicBackgroundStore.constructor | store/useMagicBackgroundStore.ts:13 | the background starts hidden |
| MagicBackground.MagicBackgroundStore.ToggleBackground | store/useMagicBackgroundStore.ts:14-15 | the flag is negated |
| MagicBackground.MagicBackgroundStore.ClearMagicBackgroundSettings | store/useMagicBackgroundStore.ts:16 | the flag becomes false from any state |
| MagicBackground.ToggleTwiceRestores | store/useMagicBackgroundStore.ts:14-15 | toggling twice restores the original flag |
| MagicBackground.ClearTwiceIsClearOnce | store/useMagicBackgroundStore.ts:16 | clearing is idempotent: twice leaves the flag false |
| SettingDialog.WithFieldFrame | components/commons/Setting.tsx:54-56 | an input edit sets its own field to the typed value and leaves the other three fields unchanged |
| SettingDialog.DiffersIgnoresTokens | components/commons/Setting.tsx:46-52 | the token field never affects isChanged |
| SettingDialog.FromStoreUnchanged | components/commons/Setting.tsx:67-69 | a local copy taken from the store is not changed with respect to it |
| SettingDialog.EditMakesChange | components/commons/Setting.tsx:46-56 | one edit on a copy that matched the store makes isChanged true exactly when it puts a new value into key, URL or model |
| SettingDialog.Setting.constructor | components/commons/Setting.tsx:32-44 | once the mount effects have run, the local copy is the store's three fields with tokens 100, and nothing is changed |
| SettingDialog.Setting.SyncFromStore | components/commons/Setting.tsx:42-44 | the local copy becomes the store's key, URL and model, with the token field back to 100 |
| SettingDialog.Setting.UpdateIsChanged | components/commons/Setting.tsx:46-52 | isChanged becomes true exactly when key, URL or model differs from the store, so Save and Reset are disabled exactly when all three agree |
| SettingDialog.Setting.HandleInputChange | components/commons/Setting.tsx:54-56 | only the edited field of the local copy changes |
| SettingDialog.Setting.HandleSave | components/commons/Setting.tsx:58-61 | the store takes the local key, URL and model; every other store field, maxTokens included, is unchanged; afterwards local and store agree |
| SettingDialog.Setting.HandleReset | components/commons/Setting.tsx:67-69 | the local copy is the store's again, so nothing is changed |
| SettingDialog.Setting.ToggleShowApiKey | components/commons/Setting.tsx:71-73 | the key visibility flag is negated |
| SettingDialog.Setting.HandleFetchModels | components/commons/Setting.tsx:75-89 | the busy flag ends lowered; success is reported exactly for an ok answer, whose data becomes the model list; otherwise the store is unchanged |
| SettingDialog.Setting.HandleClearAllSettings | components/commons/Setting.tsx:91-100 | both stores are reset to defaults; the local copy gets an empty key and model, tokens 100, and the store's pre-clear URL or the local URL when that was empty |
| SettingDialog.ResetThenRender | components/commons/Setting.tsx:67-69 | reset (done twice) then the isChanged effect leaves the local copy equal to the store's fields with tokens 100, the same as one reset, nothing changed and the buttons disabled |
| SettingDialog.SaveThenRender | components/commons/Setting.tsx:42-61 | save then the sync and isChanged effects leave nothing changed, with the token field back to 100 |
| SettingDialog.ClearThenRender | components/commons/Setting.tsx:91-100 | clear-all then the sync effect leaves the local copy equal to the cleared store, and nothing changed |
| Adjuster.LeadingSpace | components/ToneAdjuster.tsx:67 | the leading whitespace run: every counted character is whitespace, the next one is not |
| Adjuster.TrailingSpace | components/ToneAdjuster.tsx:67 | the trailing whitespace run: every counted character is whitespace, the one before is not |
| Adjuster.TrimSpec | components/ToneAdjuster.tsx:67 | trim returns a slice of the content with everything cut off being whitespace, and neither starts nor ends with whitespace |
| Adjuster.TrimIdempotent | components/ToneAdjuster.tsx:67 | trimming twice equals trimming once |
| Adjuster.UserMessageRoundTrip | components/ToneAdjuster.tsx:41 | the user message `Rewrite the following text: "<text>"` gives back the text unaltered |
| Adjuster.RequestBodySpec | components/ToneAdjuster.tsx:43-51 | the body holds exactly model, messages, max_tokens and every parameter key; each parameter is there with its value; the fixed fields keep their values unless a parameter overwrites them; there are exactly two messages, the fixed system instruction then the user message `Rewrite the following text: "<text>"`, whose quoted part is the text |
| Adjuster.GridKeysAvoidFixedFields | components/ToneAdjuster.tsx:50 | no key of the grid catalogue collides with a fixed body field, so the spread never overwrites model, messages or max_tokens |
| Adjuster.NewOutputSpec | components/ToneAdjuster.tsx:62-67 | a response yields new output exactly when it is ok and has content, and that output is the trimmed content; a non-ok status takes the failure path |
| Adjuster.InitialParamsAreGridDefaults | components/ToneAdjuster.tsx:15-24 | the adjuster's initial parameters are exactly the grid catalogue's defaults |
| Adjuster.ToneAdjuster.constructor | components/ToneAdjuster.tsx:12-26 | empty texts, the initial parameters, no previous parameters, not loading, nothing pending or in flight |
| Adjuster.ToneAdjuster.HandleInputChange | components/ToneAdjuster.tsx:82-87 | the text is always stored; the generator is called with it and the current parameters only when it is longer than three characters |
| Adjuster.ToneAdjuster.HandleParameterChange | components/ToneAdjuster.tsx:89-97 | the new parameters are always stored; the generator is called with the current text and them only when the text is longer than three characters |
| Adjuster.ToneAdjuster.StartGeneration | components/ToneAdjuster.tsx:32-60 | text of three characters or fewer produces no request and no state change; otherwise loading goes up and the request is the completion call for the pending text and parameters |
| Adjuster.ToneAdjuster.FinishGeneration | components/ToneAdjuster.tsx:62-78 | on success the old output and parameters become previous, and the trimmed content and sent parameters become current; on failure only the output changes, to "Error adjusting text"; loading goes down either way |
| Adjuster.ShortTextNeverRequests | components/ToneAdjuster.tsx:33 | short text never produces a request, however many parameter changes follow; the loading flag and the in-flight call stay as they were |
| Adjuster.SuccessfulCycle | components/ToneAdjuster.tsx:67-78 | a text edit, request and successful answer rotate the old output and parameters into previous, and loading is off at the end |

## Findings

| source | as written | input that shows it | evidently intended | confidence | as-written member | corrected member |
|---|---|---|---|---|---|---|
| components/ToneChangerGrid.tsx:173 | the slider thumb sits at `sliderValues[key] \|\| param.default`, and 0 is falsy | a grid sample on the left edge stores temperature 0; the thumb then shows 0.7 | the thumb shows the stored value, 0 included; the same line exists at components/AdvancedParameterPlayground.tsx:216 | high for the logic, not executed | Grid.SliderPositionAsWrittenLosesZero | Grid.SliderPositionShowsStored |

## Left out

- HTTP calls are not performed. Each response is an input: `CompletionResponse`, `ModelsResponse`. A JSON body without `choices[0].message.content` is the `content = None` case. A models answer without `data` is not modelled.
- Debounce timing is not modelled: the 1000 ms delay and which timer fires when. The model keeps one register holding the latest pending call. The code creates a new debounced function whenever `outputText`, `currentParams` or a setting changes, and calls still pending on older ones fire too. So several requests can be in flight at once, each setting and clearing `isLoading`. Neither is modelled.
- Adjuster.ToneAdjuster.StartGeneration: keeps only the latest in-flight call. A start while an earlier request is still awaiting its response replaces that call, so the earlier response is not applied. The code keeps both requests and applies both responses.
- Adjuster.ToneAdjuster.StartGeneration: reads the settings store (key, base URL, model, max tokens) when the delay elapses. The code's debounced closure captured them when it was created. `Invocation` snapshots the output and parameters but not the settings.
- Adjuster.ToneAdjuster.HandleParameterChange: the output and parameters a call "saw" come from the handler's render. That is what a stale closure would see, when one debounced function serves one call. Calls queued on older debounced functions are not modelled.
- Trigonometry is not computed. The sector fraction `angle / 2π` is an input, assumed to lie in [0, 1). The model does not check that it matches the pointer's direction.
- `renderDecagon`'s vertex geometry and all JSX rendering are left out: labels, popup, the advanced-mode switch and toggling, and the slider display (except the finding above).
- Mapping.Round2: rounds in exact arithmetic. It does not reproduce binary floating point, where a value like 1.005 rounds down. Nor does it handle `toFixed`'s exponent format above 1e21.
- Zero-size bounding boxes (division by zero gives IEEE infinities) are excluded by `requires`.
- Adjuster.LongEnough counts Unicode code points. JavaScript's `length` counts UTF-16 code units, so the two differ for text outside the Basic Multilingual Plane.
- Settings `maxTokens` and `seed` are modelled as integers. The store's type is any JavaScript number.
- Persistence is not modelled: zustand `persist`, rehydration from `localStorage`, `console` logging and toast notifications.
- Files not modelled, being presentation, library wrappers or desktop-shell bootstrapping: components/ui/select.tsx, components/commons/Footer.tsx, components/commons/ScrambleText.tsx, components/commons/MagicBackground/MagicBackground.tsx, components/commons/MagicBackground/LocalMagicBackground.tsx (random particles and animation), pages/index.tsx, main.js, preload.js, electron/main.ts, electron/preload.ts.
