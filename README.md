# Volume-bar ingestion and volume widget, modelled in Dafny

This project models the logic of a small trading dashboard. Trading software posts OHLC-style volume bars to an HTTP
endpoint. The endpoint validates and normalises them and stores them. A widget then reads them back and summarises
the net buying or selling pressure.

There are three parts, each in its own module:

- `BarValidator` (`bar_validator.dfy`) models `validateVolumeBar` and `validateVolumeBarBatch`.
  - The loose JSON input is a `JsValue`, and the checks read the eight properties the source reads.
  - Both validators are imperative, as in the source:
    - each field rule pushes onto an error list (`Push…Error` methods);
    - the batch loop appends failures and normalised records (`ValidateElements`).
  - Each method is proved equal to a specification function (`BarValidation`, `BatchValidation`). The lemmas
    state what those functions promise:
    - error order;
    - the delta tolerance;
    - the normalised record and the invariants it satisfies (`Admissible`);
    - the round trip through the stored form;
    - all-or-nothing batches whose failures are reported by index.
- `VolumeWidget` (`volume_widget.dfy`) models the pure helpers of the widget:
  - the query cutoff;
  - the live/playback classification of a feed;
  - the summary statistics and sparkline series;
  - the sparkline vertices in the 100 x 30 viewport;
  - the bias colour classes.
- `VolumeApi` (`volume_api.dfy`) models the `POST /api/volume` handler as a function. It maps the request method,
  the body and the outcome the storage layer reports to the status, the response body and the rows handed to storage.

Two shared modules support them:

- `Js` (`js.dfy`) holds JavaScript values, `typeof`, truthiness and property access.
- `Text` (`text.dfy`) holds ASCII case mapping, substring search and decimal rendering.

The clock (`now`, epoch milliseconds) and date parsing (`parse`, a string to an optional millisecond instant) are
parameters throughout. An unparseable date is `None`, which plays the part of `NaN`: every comparison with it is
false.

## Model

| member | source | states |
|---|---|---|
| BarValidator.SymbolCheck | utils/validateVolumeBar.ts:38-43 | at most one symbol error; none exactly when the symbol is a string whose upper-case form is allow-listed; "required" for an absent, empty or non-string symbol, "not allowed" for any other string outside the list |
| BarValidator.BarTimeCheck | utils/validateVolumeBar.ts:45-58 | at most one bar_time error; none exactly when bar_time is a non-empty string that parses to an instant no later than now + 5 minutes; "required" for an absent, empty or non-string value; exactly the "invalid" error for an unparseable string (the NaN comparison adds nothing); exactly the "in the future" error for a later instant |
| BarValidator.OpenVolumeCheck | utils/validateVolumeBar.ts:61-65 | at most one open_volume error; none exactly when it is a number >= 0; "required" for a non-number, "must be >= 0" for a negative number |
| BarValidator.CloseVolumeCheck | utils/validateVolumeBar.ts:67-71 | at most one close_volume error; none exactly when it is a number >= 0; "required" for a non-number, "must be >= 0" for a negative number |
| BarValidator.DeltaVolumeCheck | utils/validateVolumeBar.ts:73-86 | at most one delta_volume error; none exactly when delta is a number and, if open and close are numbers, within 0.01 of open - close; "required" for a non-number; a mismatch carrying delta and open - close when all three are numbers and the deviation exceeds 0.01 |
| BarValidator.TimeframeCheck | utils/validateVolumeBar.ts:88-93 | at most one timeframe error; none exactly when its lower-case form is allow-listed; "required" for an absent, empty or non-string value, "not allowed" for any other string outside the list |
| BarValidator.SourceCheck | utils/validateVolumeBar.ts:95-100 | at most one source error; none exactly when the source is a string in the allow-list, compared case-sensitively; "required" for an absent, empty or non-string value, "not allowed" for any other string |
| BarValidator.RelatedSymbolCheck | utils/validateVolumeBar.ts:102-105 | the single "must be a string" error exactly when related_symbol is present but not a string (null included), otherwise none |
| BarValidator.FieldErrors | utils/validateVolumeBar.ts:38-105 | when no field rule fails, every field has the type the normalisation reads it at |
| BarValidator.PushSymbolError | utils/validateVolumeBar.ts:38-43 | appends exactly the symbol rule's errors to the list collected so far |
| BarValidator.PushBarTimeErrors | utils/validateVolumeBar.ts:45-58 | appends exactly the bar_time rule's errors |
| BarValidator.PushOpenVolumeError | utils/validateVolumeBar.ts:61-65 | appends exactly the open_volume rule's errors |
| BarValidator.PushCloseVolumeError | utils/validateVolumeBar.ts:67-71 | appends exactly the close_volume rule's errors |
| BarValidator.PushDeltaVolumeError | utils/validateVolumeBar.ts:73-86 | appends exactly the delta_volume rule's errors |
| BarValidator.PushTimeframeError | utils/validateVolumeBar.ts:88-93 | appends exactly the timeframe rule's errors |
| BarValidator.PushSourceError | utils/validateVolumeBar.ts:95-100 | appends exactly the source rule's errors |
| BarValidator.PushRelatedSymbolError | utils/validateVolumeBar.ts:102-105 | appends exactly the related_symbol rule's errors |
| BarValidator.ValidateVolumeBar | utils/validateVolumeBar.ts:30-126 | the imperative validator returns exactly the specified verdict, errors and normalised record |
| BarValidator.BarValidationShape | utils/validateVolumeBar.ts:34-110 | a non-object (null included) gets only NotAnObject; the result is valid iff no error was collected iff it carries data; a valid result has no errors |
| BarValidator.ErrorsFollowFieldOrder | utils/validateVolumeBar.ts:34-105 | each field gives at most one error, in the order symbol, bar_time, open, close, delta, timeframe, source, related_symbol; NotAnObject appears only alone |
| BarValidator.ErrorsOfRank | utils/validateVolumeBar.ts:38-105 | the errors about one field are exactly the collected errors of that field's rank |
| BarValidator.EveryRuleReports | utils/validateVolumeBar.ts:38-105 | errors are not short-circuited: for an object, the errors reported about each of the eight fields are exactly that field's rule's errors, whatever the other fields hold |
| BarValidator.DeltaToleranceDecides | utils/validateVolumeBar.ts:73-86 | with three numeric volumes, a delta-mismatch error is present iff the deviation exceeds 0.01, whatever the volumes' signs, and then the record is invalid |
| BarValidator.AllowListsAreNormalized | utils/validateVolumeBar.ts:21-23 | the allow-listed symbols are non-empty and already upper case; the allow-listed timeframes are already lower case |
| BarValidator.ValidIsAdmissible | utils/validateVolumeBar.ts:107-125 | a valid result has no errors and carries the normalised record: symbol upper-cased, related_symbol upper-cased or QQQ when absent or empty, timeframe lower-cased, source, bar_time and numbers unchanged; that record satisfies every record invariant |
| BarValidator.AdmissibleFieldsPass | utils/validateVolumeBar.ts:38-105 | every field rule passes on the stored form of a record that satisfies the invariants |
| BarValidator.AdmissibleIsNormal | utils/validateVolumeBar.ts:112-125 | normalising the stored form of such a record gives the record back |
| BarValidator.AdmissibleValidates | utils/validateVolumeBar.ts:30-126 | such a record, submitted as an object, validates to itself |
| BarValidator.RoundTrip | utils/validateVolumeBar.ts:30-126 | a record submitted in stored form validates to itself exactly when it satisfies the record invariants |
| BarValidator.RevalidationIsStable | utils/validateVolumeBar.ts:111-125 | validating the normalised output of a valid record again gives the same valid result and record |
| BarValidator.ElementResultAt | utils/validateVolumeBar.ts:147-148 | the j-th element verdict is the single-record validation of the j-th element |
| BarValidator.NoElementErrorsIffAllValid | utils/validateVolumeBar.ts:147-156 | the loop collects no error exactly when every element verdict is valid |
| BarValidator.ValidBarsAligned | utils/validateVolumeBar.ts:147-153 | when every verdict is valid, the collected records are the verdicts' records, same length and order |
| BarValidator.ElementErrorsSound | utils/validateVolumeBar.ts:147-150 | every collected entry names a failed element by its index and carries that element's errors |
| BarValidator.ElementErrorsIncreasing | utils/validateVolumeBar.ts:147-150 | the collected entries name strictly increasing indices |
| BarValidator.ElementErrorsComplete | utils/validateVolumeBar.ts:147-150 | every failed element has an entry |
| BarValidator.BatchSizeChecks | utils/validateVolumeBar.ts:132-142 | a non-array, an empty array and an array over 100 are each rejected with one error; the result is valid iff it has no errors iff it carries data |
| BarValidator.BatchValidIffAllValid | utils/validateVolumeBar.ts:131-160 | a batch is valid iff it is an array of 1 to 100 elements each of which validates |
| BarValidator.ValidBatchIsAligned | utils/validateVolumeBar.ts:144-160 | a valid batch carries one normalised record per element, in input order, each the element's own result |
| BarValidator.ValidBatchIsAdmissible | utils/validateVolumeBar.ts:144-160 | every record of a valid batch satisfies the record invariants |
| BarValidator.ValidBatchRows | utils/validateVolumeBar.ts:136-160 | a valid batch hands on 1 to 100 records, each satisfying the record invariants |
| BarValidator.InvalidBatchNamesFailures | utils/validateVolumeBar.ts:144-158 | an invalid batch of acceptable size reports exactly the failed elements, by increasing index, each with its own errors |
| BarValidator.ValidateElement | utils/validateVolumeBar.ts:147-148 | validating one element gives that element's verdict |
| BarValidator.ValidateElements | utils/validateVolumeBar.ts:144-154 | the loop returns exactly the specified error entries and records |
| BarValidator.ValidateVolumeBarBatch | utils/validateVolumeBar.ts:131-161 | the imperative batch validator returns exactly the specified result |
| Text.UpperIdempotent | utils/validateVolumeBar.ts:116-117 | upper-casing an upper-cased string changes nothing |
| Text.NatToStringRoundTrip | pages/api/volume.ts:79 | the decimal text of a count reads back as the count, consists of digits only and, for a positive count, has no leading zero |
| VolumeWidget.TimeCutoffWindows | components/VolumeWidget.tsx:52-56 | "all" gives the epoch, "1h" one hour before now, any other range one day before; with the clock at least one day past the epoch the windows are nested |
| VolumeWidget.UtcDay | components/VolumeWidget.tsx:80 | the UTC weekday lies in 0..6 |
| VolumeWidget.UtcHour | components/VolumeWidget.tsx:81 | the UTC hour lies in 0..23 |
| VolumeWidget.DayAndHourFromHourOfWeek | components/VolumeWidget.tsx:79-81 | the UTC weekday and hour are the quotient and remainder of the hour of the week by 24 |
| VolumeWidget.MarketHoursWeeklyWindow | components/VolumeWidget.tsx:79-86 | with the fixed five-hour offset, market hours are exactly Sunday 23:00 UTC to Friday 22:00 UTC; Saturday never qualifies |
| VolumeWidget.SourceFieldHasPriority | components/VolumeWidget.tsx:62-68 | a source mentioning playback or historical is not live even if it mentions live; otherwise one mentioning live or realtime is live; either way the reported source is the lower-cased field |
| VolumeWidget.FallbackNeedsRecencyAndMarketHours | components/VolumeWidget.tsx:70-94 | without a mode in the source, the feed is live iff the newest bar is under 5 minutes old and the clock is in market hours; the source is live-detected iff live, else playback-detected |
| VolumeWidget.DataSourceIsLowerCase | components/VolumeWidget.tsx:58-94 | every reported source is lower case |
| VolumeWidget.LiveHasEvidence | components/VolumeWidget.tsx:58-94 | a live verdict needs bars and either a live-only source or a recent bar in market hours |
| VolumeWidget.TaggedLiveSourceIsLive | components/VolumeWidget.tsx:62-68 | a bar tagged "LIVE" is live with source "live", whatever the clock |
| VolumeWidget.ReplayMentionWins | components/VolumeWidget.tsx:62-65 | a source "playback-live" is not live |
| VolumeWidget.HistoricalPlaybackIsNotLive | components/VolumeWidget.tsx:62-65 | a source "historical-playback" is not live whatever the bar's age and the clock, and is reported as given |
| VolumeWidget.Deltas | components/VolumeWidget.tsx:112 | the deltas of the bars, one per bar, in order |
| VolumeWidget.ReverseAt | components/VolumeWidget.tsx:112 | reversal puts element i at position n-1-i |
| VolumeWidget.SumReverse | components/VolumeWidget.tsx:111-112 | reversing does not change a sum |
| VolumeWidget.TotalDeltaIsSumOfDeltas | components/VolumeWidget.tsx:111 | the reduce over bars is the sum of their deltas |
| VolumeWidget.TotalDeltaAppend | components/VolumeWidget.tsx:111 | the total over two lists of bars joined is the sum of their totals |
| VolumeWidget.SparklineShape | components/VolumeWidget.tsx:112 | the sparkline holds the deltas of the newest min(20, n) bars, oldest first, ending with the newest bar's delta |
| VolumeWidget.SparklineSumsToTotal | components/VolumeWidget.tsx:111-112 | with at most 20 bars, the sparkline values add up to the total delta |
| VolumeWidget.EmptyStats | components/VolumeWidget.tsx:98-108 | no bars give zero totals, empty sparkline, not live, source "no-data" |
| VolumeWidget.StatsSummarise | components/VolumeWidget.tsx:110-122 | with bars: total = sum of deltas, count = number of bars, average * count = total, last update = newest bar's time, mode = the classifier's |
| VolumeWidget.StatsExample | components/VolumeWidget.tsx:97-123 | two bars, newest first, with deltas 10 and -4 give total 6, average 3, the newest bar's time and sparkline [-4, 10] |
| VolumeWidget.MaxWithZero | components/VolumeWidget.tsx:162 | at least 0 and every value, and equal to 0 or to one of the values |
| VolumeWidget.MinWithZero | components/VolumeWidget.tsx:163 | at most 0 and every value, and equal to 0 or to one of the values |
| VolumeWidget.Range | components/VolumeWidget.tsx:164 | the range used for scaling is always positive |
| VolumeWidget.RangeIncludesZero | components/VolumeWidget.tsx:162-164 | the band always takes in 0, and all-zero values give range 1 |
| VolumeWidget.SparklinePoints | components/VolumeWidget.tsx:166-170 | one vertex per value |
| VolumeWidget.SparkXSpansWidth | components/VolumeWidget.tsx:167 | the x coordinate starts at 2, ends at 98 and strictly increases |
| VolumeWidget.SparklineSpansWidth | components/VolumeWidget.tsx:166-170 | the path's first vertex is at x = 2, its last at x = 98, and x strictly increases along it |
| VolumeWidget.SparklineWithinBand | components/VolumeWidget.tsx:168 | every vertex has 2 <= y <= 28 |
| VolumeWidget.SparklineOrdersHeights | components/VolumeWidget.tsx:168 | a larger value never gets a larger y |
| VolumeWidget.SparklineExample | components/VolumeWidget.tsx:155-173 | [5, -5] gives the vertices (2, 2) and (98, 28) |
| VolumeWidget.BiasFollowsSign | components/VolumeWidget.tsx:175-185 | green exactly for a positive total, red exactly for a negative one, gray exactly for zero; the background follows the same split |
| VolumeApi.BarReasons | pages/api/volume.ts:53-58 | the single-record errors go into the response verbatim, in order |
| VolumeApi.BatchReasons | pages/api/volume.ts:53-58 | the batch errors go into the response verbatim, in order |
| VolumeApi.RouteFollowsValidator | pages/api/volume.ts:46-59 | an array body goes to the batch validator and anything else to the single-record one; the route accepts exactly what that validator accepts |
| VolumeApi.OnlyPostIsServed | pages/api/volume.ts:35-40 | any method but POST gets 405 "Method not allowed. Use POST." and nothing is stored; POST never gets 405 |
| VolumeApi.ValidationGatesStorage | pages/api/volume.ts:53-65 | a rejected body gets 400 "Validation failed" with the validator's errors and nothing is stored; an accepted one is handed to storage as validated |
| VolumeApi.RouteAcceptsOnlyAdmissibleBars | pages/api/volume.ts:46-64 | an accepted body yields 1 to 100 rows, each satisfying the record invariants |
| VolumeApi.StoresOnlyAdmissibleBars | pages/api/volume.ts:30-92 | storage is only ever handed 1 to 100 rows, on POST, each satisfying the record invariants |
| VolumeApi.StorageOutcomeDecides | pages/api/volume.ts:67-91 | a storage error gives 500 with its message; an exception gives 500 with its message or "Unknown error occurred"; success gives 200 with the number of rows returned, or 1 when none are returned |
| VolumeApi.SuccessMessageStatesCount | pages/api/volume.ts:77-82 | the success message is "Successfully inserted ", the count in canonical decimal (digits only, no leading zero) and " volume bar(s)" |
| VolumeApi.PostedAdmissibleBarIsStored | pages/api/volume.ts:43-82 | a record satisfying the invariants, posted alone, is stored as itself, and gets 200 when storage succeeds |
| VolumeApi.EmptyArrayIsAnEmptyBatch | pages/api/volume.ts:46-59 | an empty array is refused with 400 and the single "Array cannot be empty" error; it is never read as a record |

## Left out

- Upper, Lower (Text.Upper, Text.Lower): map ASCII letters only. JavaScript's `toUpperCase`/`toLowerCase` cover all of Unicode, so a non-ASCII symbol or timeframe is modelled incompletely.
- Numbers are reals. NaN, the infinities and rounding are not modelled. `JSON.parse` gives no NaN, but an out-of-range literal such as `1e400` becomes `Infinity`.
- DeltaVolumeCheck (BarValidator.DeltaVolumeCheck): rejects what the source accepts when volumes overflow. With open_volume and close_volume both `1e400` and delta_volume `7`, the source computes `Infinity - Infinity = NaN`. The comparison with the tolerance is then false, and the record passes. The model reads the numbers as reals and reports a delta mismatch. Both open_volume and close_volume are also accepted as `Infinity` by the source, since `Infinity < 0` is false.
- Error messages are a datatype of error kinds. The interpolated texts (allow-list joins, the numbers of a delta mismatch) are not rendered, and "Bar i: …" is `BarInvalid(i, errors)`.
- Date parsing and the clock are parameters, so the ISO 8601 grammar accepted by `new Date` is not modelled.
- ValidateVolumeBarBatch (BarValidator.ValidateVolumeBarBatch): reads the clock once for the whole batch. The source calls `Date.now()` again inside each element's validation (utils/validateVolumeBar.ts:54, 147-148), so a bar near the five-minute future limit can be judged against a slightly later clock than the bars before it.
- TimeCutoff (VolumeWidget.TimeCutoff): returns epoch milliseconds, not the ISO string `toISOString` renders.
- SparklinePoints (VolumeWidget.SparklinePoints): requires a number of values other than one. For a single value the source divides 0 by 0 and draws a NaN coordinate.
- The sparkline path is modelled as its list of vertices, not as the `M x,y L …` SVG string.
- Market hours use the code's fixed five-hour offset. The comment in the source mentions a daily break, but the code does not implement one, and the model follows the code. Daylight saving time is not modelled either.
- The handler's `try` can in practice only be left by the awaited insert, so an exception is modelled as a storage outcome (`Threw`).
- `console.error` logging is not modelled.
- Not part of this model:
  - React state, `useEffect`/`setInterval` polling, `fetchVolumeData` and its Supabase query (the fetched list, newest first, is an input);
  - `formatNumber`, `formatTime` and the JSX;
  - lib/supabaseAdmin.ts and lib/supabaseClient.ts;
  - next.config.js;
  - components/MainTerminalLayout.tsx;
  - types/index.ts;
  - scripts/test-api.js.
