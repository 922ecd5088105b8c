# Weather app front end — Dafny model

This project models the client-side logic of a small desktop weather app: the
React `App` component (`frontend/src/App.tsx`) and the generated payload classes
(`frontend/wailsjs/go/models.ts`). The backend that queries the weather provider
is not modelled.

What is modelled:

- **Icon selection** (`WeatherIcon`). The `WeatherIcon` component switches on the
  first two characters of an OpenWeather icon code and defaults to the sun.
- **Background theme** (`Background`). `getBackgroundClasses` picks one of seven
  gradients. It uses an ordered first-match rule list over the lower-cased
  `main` of the first current condition, plus the hour of day. Night is before 6
  or after 20.
- **Display windows** (`Display`):
  - `hourly.slice(1, 13)` with its first cell captioned "Teraz".
  - `daily.slice(1, 8)` with its first cell captioned "Jutro".
  - the `'01d'` icon fallback.
  - visibility shown as `Math.round(metres / 1000)` km.
- **Request lifecycle** (`Lifecycle`). The five state cells of `App` and the
  handlers that change them:
  - typing in the search field
  - submitting a search (a no-op for blank text)
  - the start of a fetch
  - its success or failure

  Completions are discrete events, and `Run` folds a sequence of them.
- **Render branch** (`View`). Which of spinner, weather panel or nothing is
  shown, whether the error banner shows, and which background is used.
- **Payload conversion** (`JsValue`, `Models`). The duck-typed
  `convertValues` helper and the field-copying constructors of the generated
  classes, over a datatype of JavaScript values.
- **JavaScript built-ins** (`JsBuiltins`). `trim`, `toLowerCase`, `includes`,
  `substring` and `Array.prototype.slice`, over strings of Unicode code points.

A failed fetch is modelled as the code has it (`frontend/src/App.tsx:52-53`):
the previous payload and location are kept. After loading ends, the old weather
panel and its background therefore stay on screen under the error banner
(`View.StaleWeatherUnderBanner`). One might expect a failure to hide the old
payload; the code keeps it, and so does this model.

The hour of day is a parameter in 0..23. `JSON.parse` is a function parameter
`parse` of the conversion functions.

## Model

| member | source | states |
|---|---|---|
| JsBuiltins.Trim | frontend/src/App.tsx:61-62 | the result is an infix of the text with only white space before and after it; it is empty exactly when the text is all ECMAScript white space, and otherwise neither starts nor ends with white space |
| JsBuiltins.Substring | frontend/src/App.tsx:15 | for ordered non-negative bounds, `substring` is the clamped slice `s[min(start,len)..min(end,len)]` |
| JsBuiltins.Slice | frontend/src/App.tsx:255 | for `0 <= start <= end`, the slice has `max(0, min(end,len) - start)` elements and element i is `s[start + i]` |
| WeatherIcon.GetIcon | frontend/src/App.tsx:13-28 | Cloud exactly for codes starting 02/03/04, CloudRain exactly for 09/10, CloudSnow exactly for 13; strings shorter than two characters give Sun |
| WeatherIcon.GetIconByGroup | frontend/src/App.tsx:22-27 | the switch agrees with reading the first two characters as an OpenWeather group number (1 clear, 2-4 clouds, 9-10 rain, 13 snow); a non-numeric prefix gives Sun |
| WeatherIcon.GetIconIgnoresSuffix | frontend/src/App.tsx:15 | characters after the first two (the d/n suffix) never change the icon |
| WeatherIcon.UnlistedCodeIsSun | frontend/src/App.tsx:27 | any prefix outside the listed cases, including a string shorter than two characters, falls back to Sun |
| Background.BackgroundOf | frontend/src/App.tsx:81-104 | with no first current condition the day-clear palette is used; a night palette is only ever chosen at night |
| Background.FirstMatchIsEarliest | frontend/src/App.tsx:88-103 | the ordered rule list yields the sky of the earliest rule whose needle occurs in the condition, and nothing exactly when no needle occurs |
| Background.BackgroundFollowsRules | frontend/src/App.tsx:88-103 | the if-chain equals first-match over clear, cloud, rain, snow (in that order) on the lower-cased `main`, painted by day or night, with day-clear for no match |
| Background.SkyIgnoresHour | frontend/src/App.tsx:86-101 | the hour only switches between day and night variants: snow ignores it, and so do two hours that are both day or both night |
| Background.NightVariantIff | frontend/src/App.tsx:86-99 | for a matched clear, cloud or rain sky, the palette is a night one exactly when the hour is night |
| Background.NightBoundary | frontend/src/App.tsx:86 | hours 5 and 21 are night, 6 and 20 are day; night is exactly hours 0-5 and 21-23 |
| Background.ClassListInjective | frontend/src/App.tsx:88-103 | the seven palettes map to seven different class lists |
| Display.IconCode | frontend/src/App.tsx:260 | a present, non-empty first icon code is used as it is; otherwise the code is `'01d'`, so it is never empty |
| Display.MissingIconIsSun | frontend/src/App.tsx:287 | an entry with no condition or an empty icon code is drawn as a sun |
| Display.HourlyCells | frontend/src/App.tsx:255-260 | the hourly list has `min(12, max(0, len-1))` cells; cell i shows raw entry i+1 with its icon; cell 0 is captioned "Teraz" and the others with their own timestamp |
| Display.DailyCells | frontend/src/App.tsx:281-287 | the daily list has `min(7, max(0, len-1))` cells; cell i shows raw entry i+1 with its icon; cell 0 is captioned "Jutro" and the others with their own date |
| Display.FullForecastFillsWindows | frontend/src/App.tsx:255-284 | with at least 13 hourly and 8 daily entries, exactly 12 hours (first "Teraz") and 7 days (first "Jutro") are shown |
| Display.JsRound | frontend/src/App.tsx:225 | `Math.round` returns the integer within half of x, ties going up |
| Display.VisibilityKm | frontend/src/App.tsx:225 | the shown kilometres are the integer k with `1000k - 500 <= metres < 1000k + 500` |
| Display.VisibilityKmIsRounded | frontend/src/App.tsx:225 | the integer formula `(v + 500) / 1000` equals `Math.round(v / 1000)` for every integer v |
| Display.VisibilityKmMonotone | frontend/src/App.tsx:225 | more metres never display fewer kilometres |
| Display.VisibilityExamples | frontend/src/App.tsx:225 | 10000 m shows 10 km, 999 m and 500 m show 1 km, 499 m shows 0 km |
| Display.DashboardOf | frontend/src/App.tsx:199-225 | the panel shows the given location, the first condition's description exactly when there is a first condition, the humidity as given, the payload's hourly and daily windows, and its visibility in km |
| Lifecycle.FetchStart | frontend/src/App.tsx:45-47 | starting a fetch sets loading and clears the error; payload, location and query are untouched |
| Lifecycle.FetchSucceeded | frontend/src/App.tsx:48-56 | success replaces the payload wholesale, sets the location to the fetched city and ends loading; error and query are untouched |
| Lifecycle.FetchFailed | frontend/src/App.tsx:52-56 | failure sets the error to the Polish prefix followed by the reason and ends loading; payload, location and query are kept |
| Lifecycle.HandleSearch | frontend/src/App.tsx:59-65 | a blank query changes nothing and fetches nothing; otherwise a fetch starts for the trimmed, non-blank query and the field is cleared |
| Lifecycle.StepKeepsNoErrorWhileLoading | frontend/src/App.tsx:45-56 | no handler can leave the app loading with an error set |
| Lifecycle.RunKeepsNoErrorWhileLoading | frontend/src/App.tsx:45-65 | loading with an error set is unreachable through any event sequence |
| Lifecycle.PayloadFromLastSuccess | frontend/src/App.tsx:49-53 | the payload and the location shown with it both come from the most recent successful completion; with none they are as they started |
| Lifecycle.PayloadNeverCleared | frontend/src/App.tsx:50-53 | once a payload has arrived, no later event removes it |
| Lifecycle.BlankSearchIsNoOp | frontend/src/App.tsx:61-64 | typing blank text then submitting leaves every cell as typing left it: no fetch, no loading, and the query text is kept |
| View.Render | frontend/src/App.tsx:106-184 | the banner shows exactly when the error is non-empty; the spinner shows exactly while loading; otherwise the weather panel or nothing, by whether a payload exists; the background comes from the payload |
| View.SpinnerExcludesBanner | frontend/src/App.tsx:158-171 | in every reachable state the spinner and the error banner are never shown together |
| View.SpinnerAfterFetchStart | frontend/src/App.tsx:46-47 | right after a fetch starts, the spinner is shown and the banner is not |
| View.StaleWeatherUnderBanner | frontend/src/App.tsx:171-202 | after a failure, the banner is shown above the previous payload's panel, its previous location and its background |
| View.FreshWeatherAfterSuccess | frontend/src/App.tsx:50-51 | after a success the new payload is shown under the fetched city, with its background |
| View.StartupShowsWarszawa | frontend/src/App.tsx:39-43 | on mount the spinner shows; once Warszawa's payload arrives, its panel shows with no banner |
| JsValue.Get | frontend/wailsjs/go/models.ts:14-16 | `source[key]` is an object's own property; on an array, an `Array.prototype` method name (such as `pop`) reads a truthy built-in and `length` the element count; other keys read undefined |
| Models.ConvertValues | frontend/wailsjs/go/models.ts:47-63 | falsy values and other non-objects return unchanged; an array maps to one of the same length; a non-array object becomes one `new classs(a)`; with `asMap` it throws exactly when some value's construction throws, and otherwise keeps its key set with each value constructed; an object passing the slice/map duck test throws |
| Models.ConvertElements | frontend/wailsjs/go/models.ts:51-52 | the array result has the same length and element i is the conversion of input element i; it throws exactly when some element's conversion throws |
| Models.ConvertEntries | frontend/wailsjs/go/models.ts:54-58 | the `asMap` loop throws exactly when constructing some value throws; otherwise the result has the input's key set, each value being `new classs` of the old value |
| Models.ArraysMapElementwise | frontend/wailsjs/go/models.ts:51-52 | arrays are mapped element-wise with `asMap` back at false, whatever `asMap` was |
| Models.ConvertMirrors | frontend/wailsjs/go/models.ts:47-63 | nested arrays stay nested with the same lengths at every depth, falsy values and primitives are kept, and every object leaf becomes an instance of the class |
| Models.New | frontend/wailsjs/go/models.ts:12-17 | a constructor yields an instance carrying exactly its declared fields; an undefined source takes the `{}` default, so every field is undefined; a null source throws; any other non-string source runs the field assignments on the source itself; a string source is parsed first, and a parse that throws makes the constructor throw |
| Models.Init | frontend/wailsjs/go/models.ts:34-45 | each declared field is the value its assignment computes; the constructor throws exactly when some assignment throws |
| Models.FieldValue | frontend/wailsjs/go/models.ts:36-43 | a plain field is the source's same-named key, with no validation or default |
| Models.LeafCopiesFields | frontend/wailsjs/go/models.ts:75-81 | a leaf class copies each declared key verbatim, and an absent key becomes undefined |
| Models.DailyWeatherConvertsNested | frontend/wailsjs/go/models.ts:93-98 | from a plain object, `DailyWeather` is built without throwing; `temp` is converted through `DailyTemp` and `weather` through `WeatherInfo`; `dt` and `pop` are copied |
| Models.WeatherDataConvertsLists | frontend/wailsjs/go/models.ts:184-189 | from a plain object, `WeatherData` is built without throwing; `daily` and `hourly` are converted element-wise through their classes and keep their length; an absent list stays undefined |
| Models.ConvertPlainNeverThrows | frontend/wailsjs/go/models.ts:47-63 | on parsed data with no object carrying both a truthy `slice` and a truthy `map`, conversion never throws |
| Models.ArraySourceReadsInheritedPop | frontend/wailsjs/go/models.ts:93-98 | an array given to the `DailyWeather` constructor yields undefined `dt`, `temp` and `weather`, while `pop` reads the inherited `Array.prototype.pop` |
| Models.InitPlainNeverThrows | frontend/wailsjs/go/models.ts:184-189 | a constructor given such a plain object fills every field without throwing |

## Left out

- Temperature, feels-like, wind, daily min/max and precipitation rounding (`frontend/src/App.tsx:206, 214, 222, 224, 262, 265, 290, 295, 298`) work on IEEE doubles, so they are left out. The cells carry the raw entry instead.
- `formatTime` and `formatDate` (`frontend/src/App.tsx:67-79`) depend on the locale and time zone. A caption keeps the timestamp it would format.
- Reading the wall clock (`frontend/src/App.tsx:85`): the hour is a parameter.
- Animations, random particles and styling (`frontend/src/App.tsx:106-311`) are presentation only. The palette identifiers stand for the class strings, which `Background.ClassList` records.
- `JsBuiltins.ToLowerCase` covers the Basic Latin and Latin-1 letters only. The provider's condition names are ASCII, and full Unicode case mapping is not modelled.
- Overlapping fetches: each completion is a discrete event applied atomically, and all state updates of one handler run are applied together.
- The kind and message of a thrown exception are not modelled. The model only records that an expression throws.
- `JSON.parse` in the constructors (for example `frontend/wailsjs/go/models.ts:13`) is a foreign call, so it is the parameter `parse`.
- `createFrom` is a one-line wrapper around the constructor and is covered by `Models.New`.
- `LocationData` and `Greet` are not used by the view. The Go backend (`app.go`) is not part of this model.
- The map from converted class instances to the typed payload that the view reads is not modelled. The view model reads a typed `Payload.WeatherData` whose `weather` lists are sequences, so a `null` list, which would throw during rendering, cannot arise.
- JsValue.Get: array index keys, and keys that objects, instances, strings, numbers and booleans inherit from their prototypes, read as undefined. No declared field name and neither duck-test key is such a key.
- JsBuiltins.Substring: positions count Unicode code points, not UTF-16 code units. A string with a character outside the Basic Multilingual Plane before the cut is cut differently, for example `"😀1x".substring(0, 2)`. Icon codes are ASCII, so the icon mapping is unaffected.
- JsBuiltins.Trim, JsBuiltins.ToLowerCase and JsBuiltins.Includes also work on code points. For well-formed strings this gives the same results as UTF-16 code units.
- Models.ConvertEntries: the source updates `a` in place and returns that same object. The model returns a new value with the same keys, so other references to `a` seeing the update are not modelled.
- `NaN` is not a value: JSON cannot produce it, so every number's truthiness is "not zero".
