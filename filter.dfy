/**
 * The filter engine: the three filter inputs and the `rows.filter(...)`
 * scan that the table renders.
 */
module FilterEngine {
  import opened JsRuntime
  import opened Rows

  /** The filter inputs; the empty string means "no constraint". */
  datatype Filters = Filters(did: string, date: string, time: string)

  const NoFilters := Filters("", "", "")

  /** The `name` of each filter input element. */
  datatype FilterKey = DID | Date | Time

  function Get(f: Filters, key: FilterKey): string {
    match key
    case DID => f.did
    case Date => f.date
    case Time => f.time
  }

  /** `{ ...prevFilters, [name]: value }`: the named key takes the new value, the other two keep theirs. */
  function WithFilter(f: Filters, key: FilterKey, value: string): (g: Filters)
    ensures Get(g, key) == value
    ensures forall k :: k != key ==> Get(g, k) == Get(f, k)
  {
    match key
    case DID => f.(did := value)
    case Date => f.(date := value)
    case Time => f.(time := value)
  }

  /** `const [clientId, date, time] = row`: a missing position is undefined. */
  function CellAt(row: Row, i: nat): Cell {
    if i < |row| then row[i] else Undefined
  }

  /**
   * Whether the predicate can be evaluated on `row`: with a DID filter set it
   * calls `clientId.toString()`, which throws on null and undefined.
   */
  predicate Evaluable(row: Row, f: Filters) {
    f.did == "" || !(CellAt(row, 0).Undefined? || CellAt(row, 0).Null?)
  }

  /**
   * The intended selection: every non-empty filter equals its cell exactly,
   * the client id compared as text, date and time as strings.
   */
  predicate Selected(host: Host, row: Row, f: Filters) {
    (f.did == "" || TextOf(host, CellAt(row, 0)) == f.did) &&
    (f.date == "" || CellAt(row, 1) == Str(f.date)) &&
    (f.time == "" || CellAt(row, 2) == Str(f.time))
  }

  /** The callback of `rows.filter`, with JavaScript's strict equality and truthiness. */
  function Matches(host: Host, row: Row, f: Filters): (m: Outcome<bool>)
    ensures m.Thrown? <==> !Evaluable(row, f)
    ensures m.Value? ==> (m.value <==> Selected(host, row, f))
  {
    var dateMatch := if f.date != "" then CellAt(row, 1) == Str(f.date) else true;
    var timeMatch := if f.time != "" then CellAt(row, 2) == Str(f.time) else true;
    var clientIdMatch :-
      if f.did != "" then
        var text :- CallToString(host, CellAt(row, 0));
        Value(text == f.did)
      else Value(true);
    Value(dateMatch && timeMatch && clientIdMatch)
  }

  /**
   * `rows.filter(...)`: the result after scanning the whole sequence is the
   * result for all rows but the last, extended by the last row if it matches.
   * An exception from any row aborts the scan.
   */
  function Filter(host: Host, rows: seq<Row>, f: Filters): (out: Outcome<seq<Row>>)
    ensures out.Thrown? <==> exists i :: 0 <= i < |rows| && !Evaluable(rows[i], f)
    ensures out.Value? ==> |out.value| <= |rows|
    ensures out.Value? ==> forall k :: 0 <= k < |out.value| ==> Selected(host, out.value[k], f)
  {
    if rows == [] then Value([])
    else
      var last := rows[|rows| - 1];
      assert forall i :: 0 <= i < |rows| - 1 ==> rows[..|rows| - 1][i] == rows[i];
      var kept :- Filter(host, rows[..|rows| - 1], f);
      var keep :- Matches(host, last, f);
      Value(if keep then kept + [last] else kept)
  }

  /** The positions of `rows` whose row is selected, in increasing order. */
  ghost function SelectedIndices(host: Host, rows: seq<Row>, f: Filters): (idx: seq<nat>)
    ensures forall k :: 0 <= k < |idx| ==> idx[k] < |rows|
    ensures forall k, l :: 0 <= k < l < |idx| ==> idx[k] < idx[l]
    ensures forall i :: 0 <= i < |rows| ==> (i in idx <==> Selected(host, rows[i], f))
  {
    if rows == [] then []
    else
      var n := |rows| - 1;
      var prefix := SelectedIndices(host, rows[..n], f);
      assert forall i :: 0 <= i < n ==> rows[..n][i] == rows[i];
      if Selected(host, rows[n], f) then prefix + [n] else prefix
  }

  /**
   * The filtered rows are exactly the selected rows of `rows`, in their
   * original order: an order-preserving subsequence that drops only the rows
   * some non-empty filter rejects.
   */
  lemma {:induction false} FilterKeepsExactlySelected(host: Host, rows: seq<Row>, f: Filters)
    requires Filter(host, rows, f).Value?
    ensures var out := Filter(host, rows, f).value;
            var idx := SelectedIndices(host, rows, f);
            |out| == |idx| && forall k :: 0 <= k < |idx| ==> out[k] == rows[idx[k]]
  {
    if rows != [] {
      var n := |rows| - 1;
      var prefix := rows[..n];
      assert forall i :: 0 <= i < n ==> prefix[i] == rows[i];
      FilterKeepsExactlySelected(host, prefix, f);
      var kept := Filter(host, prefix, f).value;
      var idx := SelectedIndices(host, prefix, f);
      var keep := Matches(host, rows[n], f).value;
      if keep {
        assert Filter(host, rows, f).value == kept + [rows[n]];
        assert SelectedIndices(host, rows, f) == idx + [n];
      } else {
        assert Filter(host, rows, f).value == kept;
        assert SelectedIndices(host, rows, f) == idx;
      }
    }
  }

  /** With all three filters empty the table shows every row, in order. */
  lemma {:induction false} FilterWithoutConstraintsIsIdentity(host: Host, rows: seq<Row>)
    ensures Filter(host, rows, NoFilters) == Value(rows)
  {
    if rows != [] {
      var n := |rows| - 1;
      var prefix := rows[..n];
      FilterWithoutConstraintsIsIdentity(host, prefix);
      assert Matches(host, rows[n], NoFilters) == Value(true);
      assert Filter(host, rows, NoFilters) == Value(prefix + [rows[n]]);
      assert prefix + [rows[n]] == rows;
    }
  }

  /** Filtering the filtered rows again with the same filters changes nothing. */
  lemma {:induction false} FilterIsIdempotent(host: Host, rows: seq<Row>, f: Filters)
    requires Filter(host, rows, f).Value?
    ensures Filter(host, Filter(host, rows, f).value, f) == Filter(host, rows, f)
  {
    if rows != [] {
      var n := |rows| - 1;
      var kept := Filter(host, rows[..n], f).value;
      FilterIsIdempotent(host, rows[..n], f);
      var last := rows[n];
      if Matches(host, last, f).value {
        var out := kept + [last];
        assert out[..|out| - 1] == kept;
        assert Filter(host, out, f) == Value(out);
      }
    }
  }

  /** The filtered view of a concatenation is the concatenation of the filtered views. */
  lemma {:induction false} FilterDistributesOverAppend(host: Host, a: seq<Row>, b: seq<Row>, f: Filters)
    requires Filter(host, a, f).Value? && Filter(host, b, f).Value?
    ensures Filter(host, a + b, f) == Value(Filter(host, a, f).value + Filter(host, b, f).value)
  {
    if b != [] {
      var n := |b| - 1;
      FilterDistributesOverAppend(host, a, b[..n], f);
      assert (a + b)[..|a + b| - 1] == a + b[..n];
      assert (a + b)[|a + b| - 1] == b[n];
      var x, y := Filter(host, a, f).value, Filter(host, b[..n], f).value;
      assert (x + y) + [b[n]] == x + (y + [b[n]]);
    } else {
      assert a + b == a;
      assert Filter(host, a, f).value + [] == Filter(host, a, f).value;
    }
  }
}
