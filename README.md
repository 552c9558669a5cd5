# Weather page forecast shaping, in Dafny

The weather page (`src/pages/Weather.js`) fetches a five-day, three-hour
forecast for one city. It groups the samples into day buckets by the date part
of each sample's `dt_txt`. It shows three days at a time behind a page cursor
with back and forward arrows. It styles the selected day's card, and it draws
a bar chart of the selected day's temperatures. This project models that
data-shaping core and proves what the page relies on:

- `Forecast`: samples and buckets. `FirstField` and `TimeLabel` model
  `dt_txt.split(' ')[0]` and `dt_txt.split(' ')[1].substring(0, 5)`.
- `Grouping`: the loop that fills `sectionalData`, written as the method
  `GroupByDay`. The dictionary is a map plus its key-creation order. That is
  the order `Object.entries` returns for non-integer-like keys. The method is
  proved equal to the reference definition `Group`, built from `Keys` (each
  key once, by first occurrence) and `Members` (a day's samples in input
  order).
- `Selection`: `selectedDate`, its refresh after a refetch, and the card
  styles.
- `Paging`: the visible-window filter and the arrow guards, as one click step
  and a run of clicks.
- `Chart`: the chart's data table.
- `Units`: the unit flag in the request and the printed suffix.
- `View`: the page's state as a class. Each handler is a method.

The unit values keep the page's own spellings, `'farenheit'` and `'celcius'`.

Two facts about the page shape the model:

- With no day selected, every card has variant `'elevation'` and elevation 0.
  It is not outlined.
- The page never clamps the cursor; it only hides the arrows, and the cursor
  keeps its value across a refetch. A response with fewer days can therefore
  leave it beyond `n - 2`. `WeatherView.Valid` only keeps `page >= 1`. The
  bound `page <= max(1, n - 2)` is proved for clicks made while the day count
  stays fixed.

## Model

| member | source | states |
|---|---|---|
| `Forecast.FirstField` | src/pages/Weather.js:90-93 | the day key is a prefix of the timestamp with no space in it, and it ends at the first space or at the end of the string |
| `Forecast.TimeLabel` | src/pages/Weather.js:235 | a label exists exactly when the timestamp has a space; it is the prefix of the text after the first space that stops at 5 characters, at the next space or at the end, whichever comes first |
| `Forecast.WellFormedTimestamp` | src/pages/Weather.js:235 | for "date time" timestamps, the day key is the date and the label is the first five characters of the time, with the same rule at line 90 |
| `Grouping.GroupByDay` | src/pages/Weather.js:87-95 | the push-or-create loop over the list gives exactly `Group(list)`; a response without `list` gives no buckets |
| `Grouping.KeysAreDayKeys` | src/pages/Weather.js:90-93 | a bucket key exists exactly when some sample has that day key |
| `Grouping.KeysDistinct` | src/pages/Weather.js:90-93 | no key is listed twice |
| `Grouping.GroupKeysDistinct` | src/pages/Weather.js:98 | the buckets have pairwise distinct keys |
| `Grouping.FirstIndex` | src/pages/Weather.js:90-93 | the first sample of a key is the first input position with that day key |
| `Grouping.KeysInFirstOccurrenceOrder` | src/pages/Weather.js:93 | keys are ordered by the position of their first sample |
| `Grouping.BucketStartsWithFirstSample` | src/pages/Weather.js:93 | a bucket is created holding its day's first sample, which stays at its head |
| `Grouping.MembersArePositions` | src/pages/Weather.js:91 | a bucket is the input restricted to exactly the positions with its key, in increasing order |
| `Grouping.MembersHaveKey` | src/pages/Weather.js:90-91 | every sample in a bucket has the bucket's key |
| `Grouping.EachSampleInOneBucket` | src/pages/Weather.js:89-95 | each sample is in the bucket of its own day key; that bucket is the only one with the key, and no other bucket holds the sample |
| `Grouping.GroupCoversInput` | src/pages/Weather.js:89-95 | the buckets together hold exactly as many samples as the input |
| `Selection.Lookup` | src/pages/Weather.js:97 | `sectionalData[k]` is undefined exactly when no bucket has key `k`; otherwise it is that bucket's samples |
| `Selection.LookupGroup` | src/pages/Weather.js:97 | looking up a key in the grouped buckets gives that day's samples, or undefined for an absent day |
| `Selection.LookupDistinct` | src/pages/Weather.js:175 | over distinct keys, looking up a day's key finds that day's own samples |
| `Selection.Pick` | src/pages/Weather.js:175 | a clicked card selects its day's samples; its card becomes the raised one and every other day's card becomes outlined |
| `Selection.RefreshAsWritten` | src/pages/Weather.js:96-97 | as written: a selection exists after the refresh exactly when one existed before, it keeps its key, and its samples are undefined exactly when no new bucket has that key, otherwise that bucket's samples |
| `Selection.RefreshAsWrittenAfterGroup` | src/pages/Weather.js:96-97 | as written, a selection keeps its key and holds exactly the new bucket for it, or undefined; no selection stays none |
| `Selection.Refresh` | src/pages/Weather.js:96-97 | the corrected refresh never leaves a selection without samples |
| `Selection.RefreshAfterGroup` | src/pages/Weather.js:96-97 | the corrected refresh keeps a surviving day's key with exactly its new samples, and clears a dropped one |
| `Selection.CardElevation` | src/pages/Weather.js:177-181 | the elevation is 0 or 6, and 6 only when a day is selected |
| `Selection.CardVariant` | src/pages/Weather.js:182-186 | an outlined card exists only under a selection and is flat; under a selection a card keeps the `'elevation'` variant exactly when it is raised |
| `Selection.CardStyle` | src/pages/Weather.js:177-186 | elevation 6 exactly for the selected key, 0 otherwise; outlined exactly when another day is selected; with no selection, flat and not outlined |
| `Selection.OneRaisedCard` | src/pages/Weather.js:177-181 | over buckets with distinct keys, at most one card is raised, and it is the selected day's |
| `Paging.Step` | src/pages/Weather.js:143-157 | a click moves the cursor by one only through a visible arrow, never below 1, and keeps it within `1 .. max(1, n - 2)` |
| `Paging.RunKeepsRange` | src/pages/Weather.js:143-157 | any series of clicks keeps a cursor that is in range in range |
| `Paging.CursorInRange` | src/pages/Weather.js:69 | from the first page, the cursor stays within `1 .. max(1, n - 2)` |
| `Paging.FewDaysNoControls` | src/pages/Weather.js:144-155 | with three days or fewer the cursor stays at 1 and both arrows stay hidden |
| `Paging.Shown` | src/pages/Weather.js:171-173 | no more cards than days, and every shown day is a day whose index is inside `[page - 1, page + 1]` |
| `Paging.ShownIsWindow` | src/pages/Weather.js:171-173 | the shown days are the slice `[page - 1, page + 1]` cut to the days that exist: consecutive, in bucket order, at most three; index `i` is shown exactly when it is inside that slice |
| `Chart.Points` | src/pages/Weather.js:234-237 | one row per sample, in order, labelled with its time label and valued with its temperature; no rows when some timestamp has no time part |
| `Chart.ChartOf` | src/pages/Weather.js:226-245 | no chart exactly when nothing is selected; a render error exactly when the selection's samples are undefined or a timestamp has no time part; otherwise the header row and one row per sample |
| `Chart.ChartOfPicked` | src/pages/Weather.js:226-238 | a clicked day's chart is the header row followed by exactly one row per sample, in order |
| `Chart.StaleSelectionBreaksChart` | src/pages/Weather.js:234 | as written, a selected day missing from the new response makes the chart spread `undefined`, and the render fails |
| `Chart.StaleSelectionExample` | src/pages/Weather.js:96-97 | a selected day that charts well before a refetch fails the render after a response that starts a day later |
| `Chart.RefreshKeepsChart` | src/pages/Weather.js:226-238 | with the corrected refresh, the chart never fails on well-formed timestamps: it charts a surviving day's new samples, or nothing |
| `Units.RequestUnits` | src/pages/Weather.js:81 | a metric request always prints the "C" suffix |
| `Units.Suffix` | src/pages/Weather.js:209 | the suffix is "F" or "C", and "F" is never printed for 'celcius' |
| `Units.RadioUnitsAgree` | src/pages/Weather.js:81 | for the two radio values, the request is metric exactly when the suffix is "C" (line 209) |
| `Units.InitialUnitIsImperial` | src/pages/Weather.js:70 | the page starts with 'farenheit', requests imperial units and prints "F" |
| `Units.OtherUnitsDisagree` | src/pages/Weather.js:209 | any other unit string requests imperial units but prints "C" |
| `View.WeatherView.constructor` | src/pages/Weather.js:67-72 | initial state: unit 'farenheit', page 1, no days, no selection |
| `View.WeatherView.SetUnit` | src/pages/Weather.js:74-76 | sets the unit and changes nothing else |
| `View.WeatherView.ApplyResponse` | src/pages/Weather.js:87-99 | the days become the grouping of the response; the selection is refreshed with the corrected `Selection.Refresh` (a dropped day is cleared, where the page stores `[key, undefined]`); cursor and unit are kept; the invariant holds |
| `View.WeatherView.SelectDay` | src/pages/Weather.js:175 | a visible card's click selects that day with its samples and changes nothing else; the selection stays one of the days |
| `View.WeatherView.RaisedCardIsSelected` | src/pages/Weather.js:177-181 | in any reachable state, at most one day card is raised, and one is raised exactly when a day is selected |
| `View.WeatherView.SelectionCharts` | src/pages/Weather.js:226-238 | in any reachable state, a selection whose timestamps have a time part charts the header and one row per sample, never a render error |
| `View.WeatherView.GoBack` | src/pages/Weather.js:143-145 | the cursor takes one back step (a no-op while the arrow is hidden); nothing else changes |
| `View.WeatherView.GoForward` | src/pages/Weather.js:151-157 | the cursor takes one forward step (a no-op while the arrow is hidden); nothing else changes |

## Findings

| source | as written | input that shows it | evidently intended | confidence | as-written member | corrected member |
|---|---|---|---|---|---|---|
| src/pages/Weather.js:96-97 | a refetch sets the selection to `[key, sectionalData[key]]` even when that day is gone. The chart at line 234 then spreads `undefined` (`...undefined?.map(...)`), which throws. | a day is selected, and the unit is toggled after the forecast has moved past that day. Equally, a response without `list` | keep the selection only while its day is still in the response, and clear it otherwise | medium, not executed | `Chart.StaleSelectionBreaksChart` | `Chart.RefreshKeepsChart` |

`View.WeatherView.ApplyResponse` uses the corrected `Selection.Refresh`.

## Left out

- The HTTP request, JSON decoding, the URL and the API key (src/pages/Weather.js:82-86) are network I/O. A response is a parameter of `ApplyResponse`: `None` when the response has no `list`.
- React's hook scheduling, the effect re-running on a unit change, and the ordering of overlapping responses (src/pages/Weather.js:78-102) are event-loop concurrency. `SetUnit` and `ApplyResponse` are separate steps.
- The loading flag, and hiding everything while `paginatedData` or `city` is null (src/pages/Weather.js:67-68, 80, 88, 99, 109), only decide what is rendered while I/O is in flight.
- The average temperature (src/pages/Weather.js:203-208) is floating-point arithmetic with `Math.round`. Temperatures are `real` and are only copied.
- Date formatting with `Intl.DateTimeFormat` (src/pages/Weather.js:190-192) comes from a foreign locale library.
- The icon URL, the weather text and the city header (src/pages/Weather.js:189, 197, 217-219) are string display over possibly undefined fields.
- Styles, layout, media queries and the chart library's drawing (src/pages/Weather.js:24-65, 194-200, 227-244) are UI only.
- A sample always has a string `dt_txt`. A sample without it makes line 90 of src/pages/Weather.js throw inside the `forEach`; the model does not represent that failure.
- Forecast.TimeLabel: counts Dafny characters, while `substring(0, 5)` counts UTF-16 code units. The two agree on the ASCII timestamps the forecast uses.
- JavaScript object quirks are not modelled: prototype keys such as "constructor", and integer-like keys that `Object.entries` lists first. Forecast day keys are dates, which have neither property.
