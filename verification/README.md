# Greeting selector

A Dafny model of the greeting selector of a personal portfolio site
(`src/utils/greetings.ts`). The selector produces the headline greeting. The
first call, and the first call after a reset, gives a casual phrase followed by
an introduction. After a casual greeting, the next call gives either a
weather-conditioned phrase or a phrase for the time of day. After one of
those, the greeting is casual again. Weather phrases are chosen by
temperature band first, then by sky condition. The condition comes from
mapping the WMO weather interpretation code returned by the Open-Meteo
forecast service.

The model is functional:

- The module-global `lastGreetingType` becomes an explicit `State`
  (`Option<GreetingType>`). Each call receives it and returns the new one
  (`Greeting.Next`), and `Greeting.Reset` returns the empty state.
- Every `Math.random()` becomes a caller-supplied real draw in [0, 1). The
  item picked is `items[floor(draw * |items|)]`, as in the source.
- The weather branch is taken when a sample is present and the coin draw is
  `> 0.7`. The JavaScript literal `0.7` is the double just below the real
  0.7, and the next double lies above the real 0.7, so no double lies
  strictly between that literal and the real 0.7.
  Hence, for every double `x`, `x > 0.7` gives the same answer in doubles
  and in exact reals, and the model compares exact reals.
- The clock becomes an `hour` in 0..23.
- `contentData.greetings` becomes a `Content.Greetings` value. Its phrase
  tables are required to be non-empty (`Content.WellFormed`). Its
  time-of-day entries may be missing.

Modules: `Options` (optional values), `RandomPick` (`getRandomItem`),
`DayTime` (`getTimeOfDay`), `Content` (the greeting tables), `WeatherPhrase`
(the WMO code mapping and `getWeatherGreeting`), `Greeting`
(`getIntroduction`, `getCompleteGreeting`, `resetGreetingType`) and
`Alternation` (runs of consecutive calls).

Design decisions taken from the code:

- The memory slot keeps the code's three values: casual, timeBased and
  weather. Both non-casual values lead back to casual.
- The weather sample carries its condition as a string, as the code does.
  The phrase dispatch matches `rain`, `drizzle` and `thunderstorm` to rainy
  phrases, and any unrecognised string falls back to sunny phrases.
- The time-based branch falls back to the first casual greeting in two
  cases: when no entry matches, and when the matching entry's message is
  empty. This is because the code joins them with `||`.

## Model

| member | source | states |
|---|---|---|
| `RandomPick.PickIndex` | src/utils/greetings.ts:33 | the index `floor(draw * length)` is always a valid position of a non-empty table, and it is the integer part of the scaled draw |
| `RandomPick.Pick` | src/utils/greetings.ts:32-34 | the item `getRandomItem` returns always belongs to the table it was drawn from |
| `RandomPick.PickIndexInterval` | src/utils/greetings.ts:33 | index `i` is chosen exactly when the draw lies in [i/n, (i+1)/n), so each of the n items owns an interval of equal width |
| `RandomPick.EveryItemReachable` | src/utils/greetings.ts:32-34 | for every item of a table, some draw picks it |
| `DayTime.TimeOfDayAt` | src/utils/greetings.ts:17-27 | morning exactly for hours 5 to 11, afternoon exactly for 12 to 17, evening exactly for 0 to 4 and 18 to 23 |
| `WeatherPhrase.ClassifyCode` | src/utils/greetings.ts:65-73 | a code is clouds exactly when it is in {1,2,3,45,48}, rain exactly when it is one of the sixteen drizzle, rain, shower and thunderstorm codes, snow exactly when it is in {71,73,75,77,85,86}, and clear exactly when it is in none of these sets (0 included) |
| `WeatherPhrase.SampleOf` | src/utils/greetings.ts:66-77 | the sample keeps the temperature, and its condition is one of "clear", "clouds", "rain" or "snow"; it is "clear" exactly for the codes outside the cloud, rain and snow sets |
| `WeatherPhrase.CategoryOf` | src/utils/greetings.ts:92-114 | cold exactly below 5 degrees and hot exactly above 30, whatever the condition; in [5, 30], rainy exactly for rain/drizzle/thunderstorm, snowy exactly for snow, cloudy exactly for clouds, sunny for every other string |
| `WeatherPhrase.WeatherGreeting` | src/utils/greetings.ts:89-115 | the phrase belongs to the table of the sample's category: to `cold` below 5 degrees and to `hot` above 30 |
| `WeatherPhrase.ClassifiedSampleDispatch` | src/utils/greetings.ts:101-114 | for temperatures in [5, 30], a sample built from any WMO code is answered from its own bucket's table (clear is sunny, clouds is cloudy, rain is rainy, snow is snowy); the sunny table answers exactly the clear codes |
| `WeatherPhrase.TemperatureBoundaries` | src/utils/greetings.ts:92-98 | the bands are strict: 5 and 30 degrees fall through to the condition, 4 is always cold and 31 always hot |
| `Greeting.Introduction` | src/utils/greetings.ts:120-123 | the introduction is one of the `introductions` |
| `Greeting.CasualGreeting` | src/utils/greetings.ts:138-140 | the text is some casual phrase, one space and some introduction |
| `Greeting.FirstEntryFor` | src/utils/greetings.ts:154 | the position found holds an entry of the requested time of day and no earlier entry has that type; nothing is found exactly when no entry has it |
| `Greeting.TimeBasedGreeting` | src/utils/greetings.ts:152-155 | the message of the first entry for the current time of day if it is non-empty; otherwise, or when no entry matches, exactly the first casual greeting |
| `Greeting.Next` | src/utils/greetings.ts:132-163 | from an empty or non-casual memory, the answer has the casual-plus-introduction shape and the memory becomes casual; from a casual memory the memory becomes non-casual; it becomes weather exactly when the previous one was casual, a sample was supplied and the coin exceeded 0.7, and the text then comes from the sample's weather table; otherwise it is the time-based greeting |
| `Greeting.Reset` | src/utils/greetings.ts:168-170 | the memory is empty after a reset, whatever it held before; `Greeting.ResetRestartsCycle` states what the next call then does |
| `Greeting.ResetRestartsCycle` | src/utils/greetings.ts:168-170 | the call after a reset takes the first-call branch: memory casual, text exactly the drawn casual phrase, a space and the drawn introduction |
| `Alternation.Run` | src/utils/greetings.ts:12 | successive calls share one memory slot, each starting from the state the previous call left; the contract states only the shape: one answer per request, and every answer leaves the memory set |
| `Alternation.CasualEveryOtherAnswer` | src/utils/greetings.ts:127-128 | over any run, with or without weather, answer `i` is casual exactly when `i` plus the starting shift is even; the shift is 0 from an empty or non-casual memory and 1 from a casual one, so two casual answers never follow each other either |
| `Alternation.WeatherOnlyWithSample` | src/utils/greetings.ts:146-148 | over any run, an answer is weather-based only when its own request supplied a weather sample and a coin draw above 0.7 |
| `Alternation.NeverTwoNonCasualInARow` | src/utils/greetings.ts:143-162 | over any run of calls, two consecutive answers are never both non-casual, and a run that starts from an empty or non-casual memory opens casual |
| `Alternation.WithoutWeatherAlternatesStrictly` | src/utils/greetings.ts:125-163 | with no weather sample, answers alternate casual, time-based, casual, ...; from a casual memory the alternation starts with time-based |
| `Alternation.FourCallExample` | src/utils/greetings.ts:132-163 | with tables "Hi", "there" and a single morning entry "GM", at 8 o'clock and without weather, four calls from the start give "Hi there", "GM", "Hi there", "GM" |

## Left out

- Geolocation, the HTTP request to Open-Meteo, JSON parsing, the five-second timeout, error swallowing and `console.debug` in `fetchWeatherData` (src/utils/greetings.ts:40-64, 79-83). These are browser and network I/O; the weather sample is an optional parameter, and `WeatherPhrase.SampleOf` models how it is built.
- `Math.round` of the reported temperature (src/utils/greetings.ts:76). The temperature is an already-rounded integer, because the model has no floating point.
- `RandomPick.PickIndex`: does not model IEEE rounding of `Math.random() * array.length`. Draws and their products are exact reals.
- Drawing from an empty table, which yields `undefined` in the source. The content tables are required to be non-empty (`Content.WellFormed`), as the selector assumes of its content.
- The `async`/`Promise` wrapper of `getCompleteGreeting`. Nothing in it awaits, so a call is one synchronous step.
- The module-global mutable variable. The state is threaded explicitly; single-threaded use makes this equivalent.
- The skeleton components (`src/components/skeletons/ContactSkeleton.tsx`, `src/components/skeletons/ProjectsSkeleton.tsx`, `src/components/SectionSkeleton/SectionSkeleton.tsx`). They are presentational markup only.
- `src/pages/Home/useHomeData.tsx` and `src/pages/Home/usePDFDownload.tsx`. They are React hook glue over helpers that are not part of this model.
- `scripts/generate-version.js`. It does filesystem writes and reads wall-clock timestamps.
