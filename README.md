# Calorie tracker: state store and AI response handling

A Dafny model of the two pieces of real logic in a mobile-styled diet and
fitness tracker, with proofs about each:

- **The client-side state store** (`src/store/useAppStore.ts`, module `Store`
  in `store.dfy`). The class `AppStore` keeps the store's fields:
  - the onboarding flag;
  - the profile;
  - today's log;
  - the history;
  - the theme and unit preferences;
  - the selected date;
  - the browser's key/value storage, as a `map`.

  Every action is a method. Its postcondition gives the store's whole new
  state, including the storage key it writes. The start-up loader
  `LoadState` is a method with its own specification. That specification
  covers the day rollover and the write-back, the date stamp, the total
  recomputed from the entries, the `"true"`-only onboarding flag, the
  preference defaults and the all-defaults fallback. The calorie total is
  the recursive function `Total`. The lemmas about it show that the standing
  invariant holds: `caloriesConsumed` equals the sum of the entries'
  calories, and a missing value counts as 0. This holds after any number of
  food entries.
- **The AI client's tolerant response handling** (`src/lib/ai.ts`, module
  `AI` in `ai.dfy`). A JavaScript regular expression `/\{[\s\S]*\}/` reports
  its leftmost, longest match. That meaning is defined as the ghost predicate
  `IsRegexMatch`. `Span` is proved to return exactly that match: the text
  from the first `{` to the last `}`, and None when no `}` follows the first
  `{`. The four calls are functions of the call's outcome and of an abstract
  `parse`. They map a failed request, a missing span and a failed parse to
  their fixed sentinels: the apology text, `null` (None) or `[]`.

`wrappers.dfy` holds the `Option` type, which stands for `null`/`undefined`.

JavaScript falsiness is written out:
- a missing or falsy `calories` or `waterIntake` is `None` and counts as 0;
- a log `date` that is missing or `""` counts as absent (`HasDate`).

Numbers are unbounded integers; heights, weights and litres in the profile
are reals. The wall clock (`getTodayDate()`) is the parameter `today`.
JSON documents sit in the storage map in parsed form:
`Stored = Text | ProfileJson | LogJson`.

Three behaviours of the source are worth naming:
- `addWater` does not clamp (useAppStore.ts:145), so a negative amount
  lowers the intake (`AddedWaterTwice`).
- The extraction is greedy, from the first `{` to the last `}` (ai.ts:73).
  Two objects in one reply are therefore cut out together with the text
  between them (`TwoObjectsGiveOneSpan`).
- The loaded theme and units are whatever non-empty text is stored
  (useAppStore.ts:91-92). The source casts them to `'dark' | 'light'` and
  `'metric' | 'imperial'` without checking, so the model's fields are strings.

## Model

| member | source | states |
|---|---|---|
| `Store.EmptyLog` | src/store/useAppStore.ts:82 | the default log stamped with today: no entries, 0 calories, 0 water, date today |
| `Store.Total` | src/store/useAppStore.ts:89 | the summed calories are non-negative whenever every entry's calories are |
| `Store.TotalAppend` | src/store/useAppStore.ts:130 | the total of a concatenation of entry lists is the sum of their totals |
| `Store.TotalSkipsMissing` | src/store/useAppStore.ts:89 | entries whose calories are missing or falsy add 0, so a log of such entries totals 0 |
| `Store.AppendFood` | src/store/useAppStore.ts:129-137 | the entry is appended at the end, with earlier entries unchanged and in order; the total is the sum over the new list, which is the old total plus the entry's calories when the old log was consistent; water is unchanged; an existing date is kept, otherwise today is stamped |
| `Store.AddedWater` | src/store/useAppStore.ts:143-147 | water rises by exactly `ml` from the old value, a missing value counting as 0, with no clamping; entries and total are unchanged; the date is kept or stamped with today; consistency is preserved |
| `Store.Normalized` | src/store/useAppStore.ts:154-158 | the stored log is consistent: its total is re-derived from its entries; entries and water are taken as given; the date is kept or defaults to today |
| `Store.AppendAllKeepsTotal` | src/store/useAppStore.ts:127-140 | after any sequence of food entries the log stays consistent; it holds the old entries followed by the new ones in order; its total is the old total plus their calories; water and an existing date are unchanged |
| `Store.NormalizedIgnoresIncomingTotal` | src/store/useAppStore.ts:157 | the total passed to `setTodayLog` has no influence on the stored log |
| `Store.NormalizedStable` | src/store/useAppStore.ts:151-161 | two logs with the same entries are stored with the same total; normalizing a stored log again changes nothing |
| `Store.AddedWaterTwice` | src/store/useAppStore.ts:145 | two water additions add up exactly; a negative amount lowers the intake |
| `Store.ProfileFrom` | src/store/useAppStore.ts:73-77 | a stored profile document reads back as that profile; an absent, empty or `null` value reads as no profile; any other text throws |
| `Store.LogFrom` | src/store/useAppStore.ts:74-78 | an absent or empty value reads as the default log; a stored log document reads back as that log; every other value the model can hold (text that is not a log, a profile document) throws, by the parse or by the later sum over a missing `foodLogs` |
| `Store.Preference` | src/store/useAppStore.ts:91-92 | an absent or empty value gives the default; any other stored text is taken as it is, unchecked |
| `Store.LoadState` | src/store/useAppStore.ts:71-111 | if reading the profile or the log throws, the result is all defaults with an empty log dated today, and nothing is written; otherwise the profile is as stored, the flag holds exactly when the stored text is `"true"`, and theme and units default to `dark` and `metric`; a log dated another day becomes an empty log dated today, which is written back; any other log keeps its entries and water; the loaded log always carries today's date and a total re-derived from its entries |
| `Store.AppStore.constructor` | src/store/useAppStore.ts:113-118 | the store starts from the loaded state with empty history and the selected date today, and its log is consistent |
| `Store.AppStore.SetOnboarded` | src/store/useAppStore.ts:119-122 | the flag is set and `calorieApp_onboarded` is written as `"true"` or `"false"`; nothing else changes |
| `Store.AppStore.SetProfile` | src/store/useAppStore.ts:123-126 | the profile is replaced and written to `calorieApp_profile`; nothing else changes |
| `Store.AppStore.AddFoodEntry` | src/store/useAppStore.ts:127-140 | today's log becomes the appended log and is written to `calorieApp_todayLog`; the log is consistent afterwards, and the total grows by the entry's calories; nothing else changes |
| `Store.AppStore.AddWater` | src/store/useAppStore.ts:141-150 | today's log gets the added water and is written to `calorieApp_todayLog`; consistency is kept; nothing else changes |
| `Store.AppStore.SetTodayLog` | src/store/useAppStore.ts:151-161 | today's log becomes the normalized incoming log and is written to `calorieApp_todayLog`; the log is consistent afterwards; nothing else changes |
| `Store.AppStore.SetHistory` | src/store/useAppStore.ts:163 | the history is replaced and storage is not touched |
| `Store.AppStore.SetTheme` | src/store/useAppStore.ts:165-169 | the theme is set and `calorieApp_theme` is written; nothing else changes |
| `Store.AppStore.SetUnits` | src/store/useAppStore.ts:171-174 | the units are set and `calorieApp_units` is written; nothing else changes |
| `Store.AppStore.SetSelectedDate` | src/store/useAppStore.ts:176 | the selected date is set and storage is not touched |
| `Store.Boot` | src/store/useAppStore.ts:113-118 | the state and storage are loaded as `LoadState` promises; the store then holds exactly that profile, flag, log, theme and units, the storage after loading, an empty history and today as selected date, and its log is consistent |
| `Store.ReloadAfterSetProfile` | src/store/useAppStore.ts:123-126 | a profile written by `setProfile` is the profile loaded at the next start-up, unless the stored log is unreadable, in which case start-up falls back to all defaults |
| `AI.Span` | src/lib/ai.ts:73 | the extracted text is exactly the regular expression's leftmost-longest match from an opening to a later closing character; there is none exactly when no closing character follows an opening one |
| `AI.RegexMatchIsolated` | src/lib/ai.ts:73 | no opening character occurs before the match and no closing character after it; the match starts with the opening and ends with the closing character |
| `AI.SpanAroundProse` | src/lib/ai.ts:72-74 | a reply made of prose without `{`, then an object, then text without `}` yields exactly that object's text |
| `AI.TwoObjectsGiveOneSpan` | src/lib/ai.ts:73 | the match is greedy: two delimited objects come out as one text together with whatever lies between them |
| `AI.CoachReply` | src/lib/ai.ts:28-32 | a successful call with choices returns the first choice's content; a failed call or a completion without choices yields the fixed apology |
| `AI.ApologyHasNoSpan` | src/lib/ai.ts:31 | the apology text contains no `{`, so no span can be cut out of it |
| `AI.ExtractJson` | src/lib/ai.ts:73-74 | when the regular expression matches, the result is the parse of the match (null if the parse fails); with no match the result is null |
| `AI.HealthPlan` | src/lib/ai.ts:70-78 | a successful reply with content gives the parse of the brace span of that content; a failed coach call, or one with no choices, gives a null plan, because the apology has no brace |
| `AI.HealthPlanFromProse` | src/lib/ai.ts:70-78 | a reply of prose, one object and a trailing remark gives exactly the parse of that object, which is null when the parse fails |
| `AI.FirstContent` | src/lib/ai.ts:105 | the first choice's content when it is present; `""` when there is no choice or the content is null |
| `AI.DetectFood` | src/lib/ai.ts:105-111 | a returned completion gives the parse of the brace span of the first choice's content (null with no span or a failed parse); a failed call gives null |
| `AI.SearchFood` | src/lib/ai.ts:127-133 | a returned completion whose bracket span parses gives the parsed items; a failed call gives `[]`, never null; a non-empty result is always such a parse |
| `AI.EmptyContentGivesSentinels` | src/lib/ai.ts:105-133 | missing content gives null from food detection and `[]` from food search |
| `AI.DetectFoodFromProse` | src/lib/ai.ts:105-107 | a reply of prose without `{`, one object, then text without `}` gives exactly the parse of that object |
| `AI.SearchFoodFromProse` | src/lib/ai.ts:127-129 | a reply of prose without `[`, one array, then text without `]` gives the items that array parses to, or `[]` when it does not parse |
| `AI.DetectFoodSentinel` | src/lib/ai.ts:105-111 | a returned reply with no brace span, or whose span fails to parse, gives null, never an error |
| `AI.SearchFoodSentinel` | src/lib/ai.ts:127-133 | a returned reply with no bracket span, or whose span fails to parse, gives `[]`, never an error |

## Left out

- The remote sync bridge (`src/lib/sync.ts`): authentication, live subscriptions and debounced writes. It changes the store only through `setProfile`, `setTodayLog`, `setHistory`, `setTheme` and `setUnits`, which are modelled.
- Pages and components: rendering, routing, animation and display-only floating-point arithmetic.
- The model service requests themselves: prompts, model names and sampling parameters. Each request is the input `Call`.
- `JSON.parse` is the abstract partial function `parse`. `JSON.stringify` is not modelled: documents sit in storage in parsed form.
- The wall clock is the parameter `today`.
- `setTheme`'s toggle of the page's `light` class is a DOM side effect and is left out.
- Floating-point sums: calories and water are unbounded integers with exact addition, so NaN and rounding do not arise.
- Truthy non-numeric calories: the source would concatenate a string into the sum. A calorie value here is a number or missing.
- ProfileFrom: the source keeps any well-formed JSON stored under the profile key as the profile, such as a number or a log object. The model treats every such value as a parse failure, because a profile of the wrong shape has no representation here.
- LogFrom: the source rolls over ANY stored JSON object whose `date` is truthy and not today, whatever else it holds, such as `{"date":"2024-01-01","foodLogs":[null]}` or `{"date":5}` (useAppStore.ts:81-83): it replaces it with an empty log dated today and writes that back. The model cannot represent such objects; it treats all of them, like every other text that is not a log, as a failure that falls back to defaults. Likewise an object whose `foodLogs` holds non-entries is not representable.
- Preference: a JSON document stored under the theme or units key is read as the placeholder text `{...}`. The source reads its actual JSON text, which is likewise non-empty and starts with `{`.
- CoachReply: a choice whose `message` object is absent makes the source throw and return the apology. The model has only the content of each choice, so it cannot represent this case.
