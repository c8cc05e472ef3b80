/**
 * Turning fetched records and imported CSV rows into table rows.
 *
 * A row is a sequence of JavaScript values. A fetched record gives six cells
 * [clientId, date, time, bandwidthRequested, mir, allocatedBandwidth]; an
 * imported CSV row gives seven, the seventh being the usage indicator.
 */
module Rows {
  import opened JsRuntime

  type Cell = JsValue
  type Row = seq<Cell>

  /** A bandwidth record as the backend returns it; a missing field is `Undefined`. */
  datatype ApiRecord = ApiRecord(
    clientId: JsValue,
    timestamp: JsValue,
    bandwidthRequested: JsValue,
    mir: JsValue,
    allocatedBandwidth: JsValue)

  /** `s.split(sep)[0]`: the part of `s` before the first `sep`, or all of `s`. */
  function BeforeFirst(s: string, sep: char): (p: string)
    ensures |p| <= |s| && p == s[..|p|]
    ensures sep !in p
    ensures |p| < |s| ==> s[|p|] == sep
  {
    if s == [] || s[0] == sep then [] else [s[0]] + BeforeFirst(s[1..], sep)
  }

  /** `s.substring(0, n)` for `n >= 0`. */
  function Substring0(s: string, n: nat): (p: string)
    ensures |p| <= n && |p| <= |s| && p == s[..|p|]
    ensures |p| == n || p == s
  {
    if |s| <= n then s else s[..n]
  }

  /** `v.toFixed(1)`: only a number has the method; anything else throws a TypeError. */
  function FixedField(host: Host, v: JsValue): (r: Outcome<string>)
    ensures r.Value? <==> v.Number?
  {
    match v
    case Number(n) => Value(ToFixed1(host, n))
    case _ => Thrown(TypeError)
  }

  /**
   * The callback of `data.map` in `fetchData`. An invalid timestamp makes
   * `toISOString` throw a RangeError; a numeric field that is not a number
   * makes `toFixed` throw a TypeError.
   */
  function NormalizeApiRecord(host: Host, r: ApiRecord): (out: Outcome<Row>)
    ensures out.Thrown? <==>
      host.dateOf(r.timestamp).None? || !r.bandwidthRequested.Number? ||
      !r.mir.Number? || !r.allocatedBandwidth.Number?
    ensures out.Value? ==>
      var row := out.value;
      |row| == 6 && row[0] == r.clientId &&
      row[1].Str? && 'T' !in row[1].s &&
      row[2].Str? && |row[2].s| <= 5 && ' ' !in row[2].s &&
      row[3] == Str(ToFixed1(host, r.bandwidthRequested.n)) &&
      row[4] == Str(ToFixed1(host, r.mir.n)) &&
      row[5] == Str(ToFixed1(host, r.allocatedBandwidth.n))
  {
    match host.dateOf(r.timestamp)
    case None => Thrown(RangeError)
    case Some(t) =>
      var date := BeforeFirst(host.isoString(t), 'T');
      var time := Substring0(BeforeFirst(host.timeString(t), ' '), 5);
      var requested :- FixedField(host, r.bandwidthRequested);
      var mir :- FixedField(host, r.mir);
      var alloc :- FixedField(host, r.allocatedBandwidth);
      Value([r.clientId, Str(date), Str(time), Str(requested), Str(mir), Str(alloc)])
  }

  /** The date cell is the calendar-date part of the ISO string, whatever follows the "T". */
  lemma ApiDateIsIsoDatePart(host: Host, r: ApiRecord, t: int, day: string, rest: string)
    requires host.dateOf(r.timestamp) == Some(t)
    requires r.bandwidthRequested.Number? && r.mir.Number? && r.allocatedBandwidth.Number?
    requires host.isoString(t) == day + "T" + rest && 'T' !in day
    ensures NormalizeApiRecord(host, r).Value?
    ensures NormalizeApiRecord(host, r).value[1] == Str(day)
  {
    var iso := host.isoString(t);
    var p := BeforeFirst(iso, 'T');
    assert iso[..|day|] == day && iso[|day|] == 'T';
  }

  /** The time cell is the "HH:MM" that starts the local time string, seconds and zone dropped. */
  lemma ApiTimeIsHourMinute(host: Host, r: ApiRecord, t: int, hm: string, rest: string)
    requires host.dateOf(r.timestamp) == Some(t)
    requires r.bandwidthRequested.Number? && r.mir.Number? && r.allocatedBandwidth.Number?
    requires host.timeString(t) == hm + rest && |hm| == 5 && ' ' !in hm
    ensures NormalizeApiRecord(host, r).Value?
    ensures NormalizeApiRecord(host, r).value[2] == Str(hm)
  {
    var ts := host.timeString(t);
    var p := BeforeFirst(ts, ' ');
    assert ts[..5] == hm;
  }

  /**
   * `data.map(...)` over the fetched records: the rows in the same order, or
   * the exception of the first record whose conversion throws.
   */
  function NormalizeAll(host: Host, records: seq<ApiRecord>): (out: Outcome<seq<Row>>)
    ensures out.Value? ==>
      |out.value| == |records| &&
      forall i :: 0 <= i < |records| ==> NormalizeApiRecord(host, records[i]) == Value(out.value[i])
    ensures out.Thrown? <==> exists i :: 0 <= i < |records| && NormalizeApiRecord(host, records[i]).Thrown?
  {
    if records == [] then Value([])
    else
      var first :- NormalizeApiRecord(host, records[0]);
      var rest :- NormalizeAll(host, records[1..]);
      assert forall i :: 1 <= i < |records| ==> records[i] == records[1..][i - 1];
      Value([first] + rest)
  }

  /** `row[i]` of a parsed CSV line: `undefined` past its end. */
  function CsvCell(row: seq<string>, i: nat): Cell {
    if i < |row| then Str(row[i]) else Undefined
  }

  /** `parseFloat(row[i]).toFixed(1)`. */
  function CsvNumber(host: Host, row: seq<string>, i: nat): string {
    ToFixed1(host, ParseFloat(host, TextOf(host, CsvCell(row, i))))
  }

  /** Position `i` of the row an imported line becomes. */
  function CsvRowCell(host: Host, row: seq<string>, i: nat): Cell {
    if 3 <= i < 6 then Str(CsvNumber(host, row, i)) else CsvCell(row, i)
  }

  /**
   * The callback of `result.data.map` in `handleFileUpload`: seven cells,
   * 0, 1, 2 and 6 copied, 3 to 5 parsed and formatted. It never throws.
   */
  function NormalizeCsvRow(host: Host, row: seq<string>): (out: Row)
    ensures |out| == 7
    ensures forall i :: 0 <= i < 7 && (i < 3 || i == 6) ==> out[i] == (if i < |row| then Str(row[i]) else Undefined)
  {
    seq(7, i requires 0 <= i < 7 => CsvRowCell(host, row, i))
  }

  /** Cells 3 to 5 of an imported row are `parseFloat(row[i]).toFixed(1)`, whatever row[i] holds. */
  lemma CsvNumericCells(host: Host, row: seq<string>, i: nat)
    requires 3 <= i < 6
    ensures NormalizeCsvRow(host, row)[i] == Str(ToFixed1(host, ParseFloat(host, TextOf(host, CsvCell(row, i)))))
  {
  }

  /** A numeric CSV cell reads "NaN" exactly when `parseFloat` finds no number in it. */
  lemma CsvNumericCellIsNaNIff(host: Host, row: seq<string>, i: nat)
    requires FormatsFinitely(host)
    requires 3 <= i < 6
    ensures NormalizeCsvRow(host, row)[i] == Str("NaN") <==> ParseFloat(host, TextOf(host, CsvCell(row, i))).NaN?
  {
    CsvNumericCells(host, row, i);
    ToFixed1IsNaNOnlyForNaN(host, ParseFloat(host, TextOf(host, CsvCell(row, i))));
  }

  /** A missing field, or one with no digit and no "Infinity", still gives a row, with "NaN" in that cell. */
  lemma CsvNonNumericCellIsNaN(host: Host, row: seq<string>, i: nat)
    requires 3 <= i < 6
    requires i < |row| ==> HoldsNoNumber(row[i])
    ensures |NormalizeCsvRow(host, row)| == 7
    ensures NormalizeCsvRow(host, row)[i] == Str("NaN")
  {
    var text := TextOf(host, CsvCell(row, i));
    if i >= |row| {
      assert text == "undefined";
      forall j | 0 <= j < |text|
        ensures !IsDigit(text[j]) && !InfinityAt(text, j)
      {
        if j + 8 <= |text| {
          assert text[j..j + 8][0] == text[j];
        }
      }
    }
    ParseFloatOfNonNumericIsNaN(host, text);
    CsvNumericCells(host, row, i);
  }

  /** `result.data.map(...)`: one row per parsed line, in the same order. */
  function NormalizeCsvRows(host: Host, data: seq<seq<string>>): (out: seq<Row>)
    ensures |out| == |data|
    ensures forall i :: 0 <= i < |data| ==> out[i] == NormalizeCsvRow(host, data[i])
  {
    if data == [] then []
    else [NormalizeCsvRow(host, data[0])] + NormalizeCsvRows(host, data[1..])
  }
}
