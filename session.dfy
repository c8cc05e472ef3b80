/**
 * The table component's state (`rows`, `loading`, `filters`), the events
 * that change it, and what it renders.
 */
module Session {
  import opened JsRuntime
  import opened Rows
  import opened FilterEngine

  /** The record field a table column shows. */
  datatype Column = ClientIdColumn | DateColumn | TimeColumn | RequestedColumn | MirColumn | AllocatedColumn | UsageColumn

  /** The header as the component declares it. */
  const TableHead: seq<string> :=
    ["DID", "Date", "Time", "MIR", "BW Requested (kbps)", "BW Allocated", "Usage indicator"]

  /** The header with the two bandwidth labels in the order the rows hold their values. */
  const CorrectedTableHead: seq<string> :=
    ["DID", "Date", "Time", "BW Requested (kbps)", "MIR", "BW Allocated", "Usage indicator"]

  /** The column a header label names. */
  function LabelColumn(caption: string): Option<Column> {
    if caption == "DID" then Some(ClientIdColumn)
    else if caption == "Date" then Some(DateColumn)
    else if caption == "Time" then Some(TimeColumn)
    else if caption == "MIR" then Some(MirColumn)
    else if caption == "BW Requested (kbps)" then Some(RequestedColumn)
    else if caption == "BW Allocated" then Some(AllocatedColumn)
    else if caption == "Usage indicator" then Some(UsageColumn)
    else None
  }

  /** The field each position of a normalised row holds. */
  const RowLayout: seq<Column> :=
    [ClientIdColumn, DateColumn, TimeColumn, RequestedColumn, MirColumn, AllocatedColumn, UsageColumn]

  /** The numeric field of a fetched record behind a numeric column. */
  function NumericField(r: ApiRecord, c: Column): JsValue
    requires c in {RequestedColumn, MirColumn, AllocatedColumn}
  {
    match c
    case RequestedColumn => r.bandwidthRequested
    case MirColumn => r.mir
    case AllocatedColumn => r.allocatedBandwidth
  }

  /** Positions 3 to 5 of a fetched row hold the fields `RowLayout` names there. */
  lemma ApiRowFollowsLayout(host: Host, r: ApiRecord, i: nat)
    requires NormalizeApiRecord(host, r).Value?
    requires 3 <= i < 6
    ensures RowLayout[i] in {RequestedColumn, MirColumn, AllocatedColumn}
    ensures NormalizeApiRecord(host, r).value[i] == Str(ToFixed1(host, NumericField(r, RowLayout[i]).n))
  {
  }

  /**
   * As written, the header puts "MIR" over the requested bandwidth and
   * "BW Requested (kbps)" over the MIR.
   */
  lemma HeaderSwapsRequestedAndMir()
    ensures LabelColumn(TableHead[3]) == Some(MirColumn) && RowLayout[3] == RequestedColumn
    ensures LabelColumn(TableHead[4]) == Some(RequestedColumn) && RowLayout[4] == MirColumn
  {
  }

  /** Every label of the corrected header names the field its column shows. */
  lemma CorrectedHeaderMatchesLayout()
    ensures |CorrectedTableHead| == |RowLayout|
    ensures forall i :: 0 <= i < |RowLayout| ==> LabelColumn(CorrectedTableHead[i]) == Some(RowLayout[i])
  {
  }

  /**
   * What the component shows: the loading message, or the table with its
   * header and either the filtered rows or the "No data available" line.
   */
  datatype View =
    | Loading
    | NoData(head: seq<string>)
    | Table(head: seq<string>, shown: seq<Row>)
    | RenderError(error: JsError)

  /**
   * The component's output: the filtered rows are computed on every render,
   * so an exception there fails the render; otherwise the loading message
   * wins, then the header over "No data available" for an empty result, else
   * the header over the filtered rows. The header is the one declared.
   */
  function Render(loading: bool, filtered: Outcome<seq<Row>>): (v: View)
    ensures v.RenderError? <==> filtered.Thrown?
    ensures v.Loading? <==> loading && filtered.Value?
    ensures v.NoData? <==> !loading && filtered == Value([])
    ensures v.NoData? || v.Table? ==> v.head == TableHead
    ensures v.Table? ==> v.shown == filtered.value && v.shown != []
  {
    match filtered
    case Thrown(e) => RenderError(e)
    case Value(shown) =>
      if loading then Loading
      else if |shown| == 0 then NoData(TableHead)
      else Table(TableHead, shown)
  }

  /** The state of one mounted table. */
  class BandwidthTable {
    var rows: seq<Row>
    var loading: bool
    var filters: Filters

    /** The initial state: no rows, loading, every filter empty. */
    constructor ()
      ensures rows == [] && loading && filters == NoFilters
    {
      rows := [];
      loading := true;
      filters := NoFilters;
    }

    /**
     * The response arrived: the mapped rows replace `rows`, unless mapping one
     * record threw, in which case `rows` is not written. Loading ends either way.
     */
    method FetchSucceeded(host: Host, records: seq<ApiRecord>)
      modifies this
      ensures !loading && filters == old(filters)
      ensures rows == match NormalizeAll(host, records)
                      case Value(fetched) => fetched
                      case Thrown(_) => old(rows)
    {
      var formatted := NormalizeAll(host, records);
      if formatted.Value? {
        rows := formatted.value;
      }
      loading := false;
    }

    /** The request itself failed: only loading ends. */
    method FetchFailed()
      modifies this
      ensures !loading && rows == old(rows) && filters == old(filters)
    {
      loading := false;
    }

    /** An edit of one filter input: that key changes, the other two and the rows do not. */
    method SetFilter(key: FilterKey, value: string)
      modifies this
      ensures Get(filters, key) == value
      ensures forall k :: k != key ==> Get(filters, k) == Get(old(filters), k)
      ensures rows == old(rows) && loading == old(loading)
    {
      filters := WithFilter(filters, key, value);
    }

    /**
     * A CSV upload: nothing when no file was chosen; otherwise every parsed
     * line becomes a row appended after the existing ones. The filtered view
     * grows by the filtered new rows.
     */
    method ImportCsv(host: Host, file: Option<seq<seq<string>>>)
      modifies this
      ensures rows == if file.Some? then old(rows) + NormalizeCsvRows(host, file.value) else old(rows)
      ensures loading == old(loading) && filters == old(filters)
      ensures file.Some? && old(Filter(host, rows, filters)).Value? &&
              Filter(host, NormalizeCsvRows(host, file.value), filters).Value? ==>
              Filter(host, rows, filters) ==
              Value(old(Filter(host, rows, filters)).value + Filter(host, NormalizeCsvRows(host, file.value), filters).value)
    {
      if file.None? {
        return;
      }
      var imported := NormalizeCsvRows(host, file.value);
      if Filter(host, rows, filters).Value? && Filter(host, imported, filters).Value? {
        FilterDistributesOverAppend(host, rows, imported, filters);
      }
      rows := rows + imported;
    }

    /**
     * What a render of the current state shows. It fails exactly when a DID
     * filter is set and some row has no client id; with every filter empty,
     * loading over and some rows, it is the header over all rows, in order.
     */
    function View(host: Host): (v: View)
      reads this
      ensures v.RenderError? <==> exists i :: 0 <= i < |rows| && !Evaluable(rows[i], filters)
      ensures !loading && filters == NoFilters && rows != [] ==> v == Table(TableHead, rows)
      ensures loading ==> v.Loading? || v.RenderError?
    {
      FilterWithoutConstraintsIsIdentity(host, rows);
      Render(loading, Filter(host, rows, filters))
    }
  }

  /** A failed first fetch leaves no rows and shows "No data available", not an error status. */
  method FailedFirstFetchShowsNoData(host: Host) returns (v: View)
    ensures v == NoData(TableHead)
  {
    var table := new BandwidthTable();
    table.FetchFailed();
    v := table.View(host);
  }

  /** One record that cannot be converted aborts the whole fetch: no row is shown. */
  method BadRecordAbortsFetch(host: Host, records: seq<ApiRecord>, bad: nat) returns (shown: seq<Row>, v: View)
    requires bad < |records| && NormalizeApiRecord(host, records[bad]).Thrown?
    ensures shown == [] && v == NoData(TableHead)
  {
    var table := new BandwidthTable();
    table.FetchSucceeded(host, records);
    shown := table.rows;
    v := table.View(host);
  }

  /** A CSV file imported while the first fetch is pending is lost when the fetch succeeds. */
  method ImportBeforeFetchIsReplaced(host: Host, data: seq<seq<string>>, records: seq<ApiRecord>)
    returns (shown: seq<Row>)
    requires forall i :: 0 <= i < |records| ==> NormalizeApiRecord(host, records[i]).Value?
    ensures |shown| == |records|
    ensures forall i :: 0 <= i < |records| ==> NormalizeApiRecord(host, records[i]) == Value(shown[i])
  {
    var table := new BandwidthTable();
    table.ImportCsv(host, Some(data));
    table.FetchSucceeded(host, records);
    shown := table.rows;
  }
}
