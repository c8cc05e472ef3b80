# Bandwidth table: rows, filters and session state

A Dafny model of the bandwidth table of the DynamicSpeed dashboard
(`src/components/table.jsx`). The component fetches per-client bandwidth
records from the backend, turns each into a six-cell row, lets the operator
append rows from a CSV file (seven cells each), and shows the rows that pass
three exact-match filters on client id (DID), date and time.

- `js.dfy`, module `JsRuntime`: the JavaScript values a cell can hold,
  thrown exceptions (`Outcome`), `parseFloat`, `toFixed(1)` and `toString()`.
  Floating-point rounding and the Date library are the fields of a `Host`
  value passed to every operation that needs them. Each property holds for
  any behaviour of them with two exceptions: `decimalValue` never gives NaN
  (its type says so), and the lemmas that require `FormatsFinitely` assume
  `toFixed1` never prints a finite number as "NaN". Whether `parseFloat`
  finds a number (white space, sign, `Infinity`, a digit or `.digit`) is
  modelled exactly.
- `rows.dfy`, module `Rows`: the record-to-row callback of the fetch, the
  line-to-row callback of the CSV import, and the two `map`s over them.
- `filter.dfy`, module `FilterEngine`: the filter inputs, the functional
  update of one filter key and the `rows.filter(...)` scan, with an
  independent description of the selection (`Selected`, `SelectedIndices`)
  and the lemmas tying the two together.
- `session.dfy`, module `Session`: the component state `rows`, `loading`,
  `filters` as the class `BandwidthTable`, its events, the rendered status,
  and three scenarios built from the class.

The code behaves as follows where a reader might expect otherwise:

- a fetched record that cannot be converted (invalid timestamp, a numeric
  field that is not a number) is not skipped: the exception aborts the whole
  `map`, so `rows` keeps its previous value (`Rows.NormalizeAll`,
  `Session.BadRecordAbortsFetch`);
- a failed fetch with nothing imported before it shows "No data available",
  and never a distinct "unavailable" status; rows imported while the fetch
  was pending stay and are shown (`Session.BandwidthTable.FetchFailed`,
  `Session.FailedFirstFetchShowsNoData`);
- the CSV import reports no merged or skipped counts and rejects no line: a
  cell that holds no number becomes the text "NaN";
- a successful fetch replaces `rows`; a CSV file imported while the first
  fetch is still pending is therefore lost (`Session.ImportBeforeFetchIsReplaced`);
- the date cell comes from `toISOString` (UTC) and the time cell from
  `toTimeString` (local zone), so the two may describe different days;
- with a DID filter set, a row whose client id is `null` or `undefined`
  makes `clientId.toString()` throw, and the render fails
  (`FilterEngine.Matches`, `Session.Render`).

The model verifies with

    dafny verify --resource-limit 2000000 --verification-time-limit 0 js.dfy rows.dfy filter.dfy session.dfy

## Model

| member | source | states |
|---|---|---|
| `JsRuntime.TrimStart` | src/components/table.jsx:75-77 | the leading white space `parseFloat` skips: the result is a suffix of the input, everything cut is white space, and the result does not start with white space |
| `JsRuntime.CallToString` | src/components/table.jsx:57 | `clientId.toString()` throws exactly for null and undefined, and otherwise gives the value's text |
| `JsRuntime.ParseFloatOfNonNumericIsNaN` | src/components/table.jsx:75-77 | `JsRuntime.ParseFloat` models `parseFloat` (white space, sign, "Infinity", decimal prefix); `parseFloat` of a text with no digit and no occurrence of "Infinity" (e.g. "abc", "Inf", "N/A (Incomplete)", "undefined", "") is NaN |
| `JsRuntime.ParseFloatOfDigitIsNumber` | src/components/table.jsx:75-77 | `parseFloat` of a text starting with a digit is never NaN |
| `JsRuntime.ParseFloatOfEmptyIsNaN` | src/components/table.jsx:75-77 | `parseFloat("")` is NaN |
| `JsRuntime.TrimStartSkips` | src/components/table.jsx:75-77 | one leading white-space character makes no difference to the text `parseFloat` reads after trimming |
| `JsRuntime.ParseFloatSkipsWhiteSpace` | src/components/table.jsx:75-77 | a leading white-space character (U+00A0 among them) does not change what `parseFloat` returns |
| `JsRuntime.ParseFloatStopsAtU180E` | src/components/table.jsx:75-77 | U+180E is not white space, and a text starting with it parses to NaN whatever follows |
| `JsRuntime.ParseFloatOfSignedInfinity` | src/components/table.jsx:75-77 | a sign followed by "Infinity" gives the infinity of that sign, whatever follows |
| `JsRuntime.ParseFloatOfSignedFraction` | src/components/table.jsx:75-77 | a sign followed by "." and a digit is a number, whatever follows |
| `JsRuntime.ToFixed1IsNaNOnlyForNaN` | src/components/table.jsx:75-77 | `JsRuntime.ToFixed1` models `toFixed(1)` (also used at lines 29-31), non-finite numbers printed as `toString` prints them; it prints "NaN" exactly for NaN, given a formatter that never prints a finite number as "NaN" |
| `Rows.BeforeFirst` | src/components/table.jsx:22-23 | `split(sep)[0]` is the longest prefix without `sep`, followed by `sep` when shorter than the input |
| `Rows.Substring0` | src/components/table.jsx:23 | `substring(0, n)` is a prefix of at most `n` characters, all of the input when shorter |
| `Rows.FixedField` | src/components/table.jsx:29-31 | `v.toFixed(1)` succeeds exactly when `v` is a number |
| `Rows.NormalizeApiRecord` | src/components/table.jsx:20-33 | a record throws exactly when its timestamp is an invalid date or one of the three bandwidth fields is not a number; otherwise it gives 6 cells in the order clientId (as is), date without "T", time of at most 5 characters without a space, and the three fields formatted with one decimal |
| `Rows.ApiDateIsIsoDatePart` | src/components/table.jsx:21-22 | the date cell is the part of the ISO string before its "T" |
| `Rows.ApiTimeIsHourMinute` | src/components/table.jsx:21-23 | the time cell is the first five characters ("HH:MM") of the local time string, seconds and zone dropped |
| `Rows.NormalizeAll` | src/components/table.jsx:20-36 | the fetch's `map` gives one row per record, in order, each the record's conversion; it throws exactly when some record's conversion throws (no partial result) |
| `Rows.NormalizeCsvRow` | src/components/table.jsx:71-79 | an imported line gives 7 cells; cells 0, 1, 2 and 6 are the line's fields verbatim, `undefined` past the line's end |
| `Rows.CsvNumericCells` | src/components/table.jsx:75-77 | cells 3 to 5 are `parseFloat(field).toFixed(1)` of the field at the same position |
| `Rows.CsvNumericCellIsNaNIff` | src/components/table.jsx:75-77 | a numeric cell reads "NaN" exactly when `parseFloat` finds no number in its field |
| `Rows.CsvNonNumericCellIsNaN` | src/components/table.jsx:75-79 | a missing field, or one with no digit and no occurrence of "Infinity", still yields a 7-cell row, with "NaN" in that cell |
| `Rows.NormalizeCsvRows` | src/components/table.jsx:71-79 | the import's `map` gives exactly one row per parsed line, in the same order |
| `FilterEngine.WithFilter` | src/components/table.jsx:47-50 | a filter edit sets the named key to the new value and leaves the other two keys unchanged |
| `FilterEngine.Matches` | src/components/table.jsx:53-60 | the row predicate throws exactly when a DID filter is set and the row's client id is null or undefined; otherwise it holds exactly when every non-empty filter equals its cell (client id as text, date and time as strings) |
| `FilterEngine.Filter` | src/components/table.jsx:53-60 | the scan throws exactly when some row cannot be evaluated; otherwise it returns no more rows than it was given, every one of them selected |
| `FilterEngine.SelectedIndices` | src/components/table.jsx:53-60 | the positions of the selected rows: in range, strictly increasing, and containing a position exactly when its row is selected |
| `FilterEngine.FilterKeepsExactlySelected` | src/components/table.jsx:53-60 | the filtered rows are the rows at the selected positions, in increasing order: an order-preserving subsequence that drops exactly the rejected rows |
| `FilterEngine.FilterWithoutConstraintsIsIdentity` | src/components/table.jsx:53-60 | with all three filters empty the result is all rows, same order and length |
| `FilterEngine.FilterIsIdempotent` | src/components/table.jsx:53-60 | filtering the filtered rows again with the same filters gives the same rows |
| `FilterEngine.FilterDistributesOverAppend` | src/components/table.jsx:53-60 | the filtered view of `a + b` is the filtered view of `a` followed by that of `b` |
| `Session.ApiRowFollowsLayout` | src/components/table.jsx:25-32 | positions 3, 4 and 5 of a fetched row hold bandwidthRequested, mir and allocatedBandwidth |
| `Session.HeaderSwapsRequestedAndMir` | src/components/table.jsx:6 | the declared header labels position 3 "MIR" and position 4 "BW Requested (kbps)", the reverse of what the rows hold there |
| `Session.CorrectedHeaderMatchesLayout` | src/components/table.jsx:6 | every label of the corrected header names the field its column holds |
| `Session.Render` | src/components/table.jsx:124-163 | a throwing filter fails the render; otherwise the loading message wins, then the declared header over "No data available" for an empty result, else the declared header over the filtered rows |
| `Session.BandwidthTable.View` | src/components/table.jsx:53-163 | a render of the state fails exactly when a DID filter is set and some row's client id is null or undefined; while loading it shows the loading message or fails; with no filter, loading over and some rows, it is the declared header over all rows in order |
| `Session.BandwidthTable.constructor` | src/components/table.jsx:9-11 | the table starts with no rows, loading, and all three filters empty |
| `Session.BandwidthTable.FetchSucceeded` | src/components/table.jsx:18-40 | loading ends; `rows` becomes the converted records, or stays as it was when one conversion throws; filters unchanged |
| `Session.BandwidthTable.FetchFailed` | src/components/table.jsx:37-40 | loading ends; rows and filters unchanged |
| `Session.BandwidthTable.SetFilter` | src/components/table.jsx:47-50 | only the named filter changes; rows and loading unchanged |
| `Session.BandwidthTable.ImportCsv` | src/components/table.jsx:63-84 | with no file nothing changes; otherwise `rows` becomes the old rows followed by the converted lines, and the filtered view becomes the old filtered view followed by the filtered new rows |
| `Session.FailedFirstFetchShowsNoData` | src/components/table.jsx:37-40 | after a failed first fetch the component shows "No data available" |
| `Session.BadRecordAbortsFetch` | src/components/table.jsx:18-40 | one record that cannot be converted leaves the table empty and shows "No data available" |
| `Session.ImportBeforeFetchIsReplaced` | src/components/table.jsx:35 | rows imported before the first fetch completes are replaced by the fetched rows |

## Left out

- The HTTP request (axios) and the `await` suspension: a fetch is one of the two events `FetchSucceeded` (the response body as a sequence of records) or `FetchFailed` (the request threw). A body that is not an array is covered by neither.
- CSV tokenising by Papa.parse, including its skipping of empty lines and its asynchronous completion: the import takes the parsed lines, as `seq<seq<string>>`, and is applied at once.
- Floating-point values and formatting (the value `parseFloat` reads from a decimal prefix, `toFixed(1)` and `toString()` of a finite number) and the Date library (`new Date`, `toISOString`, `toTimeString`, time zones): fields of `Host`.
- `Rows.NormalizeApiRecord`: states that the date cell has no "T" and the time cell at most five characters and no space, not that they read `YYYY-MM-DD` and `HH:MM`, because the ISO and time strings come from `Host`; `Rows.ApiDateIsIsoDatePart` and `Rows.ApiTimeIsHourMinute` give the exact cells for strings of those shapes.
- `JsRuntime.ToFixed1IsNaNOnlyForNaN`: assumes of the formatter only that a finite number never prints as "NaN".
- Field values that are booleans, objects or arrays, and array elements of the response that are not records (such as `null`): `JsValue` has undefined, null, numbers and strings only, and every fetched element is an `ApiRecord`.
- `Rows.Substring0`: counts Unicode scalar values where JavaScript's `substring` counts UTF-16 code units; the two agree on the ASCII "HH:MM" prefix the time cell takes.
- The `console.error` logging of a failed fetch (src/components/table.jsx:38): output only, no state changes.
- React effects run twice in development mode, unmounting during a pending fetch, and the markup of the component beyond the status `Render` returns.
- src/components/BarChart.jsx (a static chart configuration) and server/index.js (Express routes, MySQL queries and password checks) are not part of this model.

## Findings

| source | as written | input that shows it | evidently intended | confidence | as-written member | corrected member |
|---|---|---|---|---|---|---|
| src/components/table.jsx:6 | the header labels column 3 "MIR" and column 4 "BW Requested (kbps)", while every row holds bandwidthRequested at 3 and mir at 4 (lines 29-30 and 75-76) | a record with bandwidthRequested 10 and mir 12 shows 10.0 under "MIR" and 12.0 under "BW Requested (kbps)" | each label heads the column of the field it names | high; not executed | `Session.HeaderSwapsRequestedAndMir` | `Session.CorrectedHeaderMatchesLayout` |
