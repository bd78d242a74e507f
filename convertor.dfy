/**
 * `PostgresJsonConvertor.execute_query` (main.py:33-42) and the helpers it
 * dispatches to: the command table, the SELECT reply and the conversion of
 * fetched rows into dicts.  The driver is not modelled: what
 * `cursor.execute` and `cursor.fetchall` did is an input `Outcome`.
 */
module Convertor {
  import opened Wrappers
  import opened Values
  import opened Tokens
  import opened Envelopes

  /** A fetched row: one value per column of the result set, in column order. */
  type Row = seq<Value>

  /**
   * What the driver did with the query: `cursor.execute` raised a
   * `psycopg2.Error` whose `str` is `error`, or it ran, leaving the column
   * names of `cursor.description` (None when the statement returns no rows,
   * as for an UPDATE) and the rows `cursor.fetchall()` would return.
   */
  datatype Outcome =
    | Failed(error: string)
    | Executed(description: Option<seq<string>>, rows: seq<Row>)

  /** Every row is at least as long as the column list, so `row[i]` is defined. */
  predicate RowsFit(columns: seq<string>, rows: seq<Row>)
  {
    forall k :: 0 <= k < |rows| ==> |columns| <= |rows[k]|
  }

  /** What the driver guarantees of a result set. */
  predicate WellFormed(o: Outcome)
  {
    o.Executed? && o.description.Some? ==> RowsFit(o.description.value, o.rows)
  }

  /** The two handlers of `SUPPORTED_COMMANDS`. */
  datatype Handler = OtherQuery | SelectQuery

  /** `SUPPORTED_COMMANDS` (main.py:15-23). */
  const SupportedCommands: map<string, Handler> :=
    map["UPDATE" := OtherQuery, "CREATE" := OtherQuery, "INSERT" := OtherQuery,
        "DELETE" := OtherQuery, "DROP" := OtherQuery, "SELECT" := SelectQuery]

  /**
   * `query.upper().split()[0]` (main.py:37): there is no command exactly
   * when the query is all whitespace (where Python raises IndexError), and a
   * command is a non-empty run without whitespace.
   */
  function Command(query: string): (r: Option<string>)
    ensures r.None? <==> forall i :: 0 <= i < |query| ==> IsSpace(query[i])
    ensures r.Some? ==> IsToken(r.value)
  {
    UpperKeepsSpaces(query);
    FirstToken(Upper(query))
  }

  // ---------------------------------------------------------------------
  // Row conversion: the specification of `create_json_helper`

  /** Every value of the row's first n columns is normalised without raising. */
  predicate PrefixConverts(row: Row, n: nat)
    requires n <= |row|
  {
    forall i :: 0 <= i < n ==> Normalize(row[i]).Ok?
  }

  /** Every column value of the row is normalised without raising. */
  predicate RowConverts(columns: seq<string>, row: Row)
    requires |columns| <= |row|
  {
    PrefixConverts(row, |columns|)
  }

  /** Every column value of every row is normalised without raising. */
  predicate RowsConvert(columns: seq<string>, rows: seq<Row>)
    requires RowsFit(columns, rows)
  {
    forall k :: 0 <= k < |rows| ==> RowConverts(columns, rows[k])
  }

  /** The dict built from the first n columns of a row, in column order. */
  function RowMapPrefix(columns: seq<string>, row: Row, n: nat): (r: RowMap)
    requires n <= |columns| <= |row| && PrefixConverts(row, n)
    ensures r.Keys == ColumnNames(columns[..n])
  {
    if n == 0 then map[]
    else
      assert columns[..n] == columns[..n - 1] + [columns[n - 1]];
      RowMapPrefix(columns, row, n - 1)[columns[n - 1] := Normalize(row[n - 1]).value]
  }

  /** `json_row` after the inner loop of main.py:78-79. */
  function RowMapping(columns: seq<string>, row: Row): (r: RowMap)
    requires |columns| <= |row| && RowConverts(columns, row)
    ensures r.Keys == ColumnNames(columns)
  {
    assert columns[..|columns|] == columns;
    RowMapPrefix(columns, row, |columns|)
  }

  /** The list `create_json_helper` returns: one dict per row, in fetch order. */
  function RowMappings(columns: seq<string>, rows: seq<Row>): (r: seq<RowMap>)
    requires RowsFit(columns, rows) && RowsConvert(columns, rows)
    ensures |r| == |rows|
  {
    seq(|rows|, k requires 0 <= k < |rows| => RowMapping(columns, rows[k]))
  }

  /** The set of names in the column list. */
  function ColumnNames(columns: seq<string>): set<string>
  {
    set c | c in columns
  }

  /** The last position at which a name occurs in the column list. */
  function LastIndexOf(columns: seq<string>, name: string): (j: nat)
    requires name in columns
    ensures j < |columns| && columns[j] == name
    ensures forall k :: j < k < |columns| ==> columns[k] != name
  {
    if columns[|columns| - 1] == name then |columns| - 1
    else LastIndexOf(columns[..|columns| - 1], name)
  }

  lemma {:induction false} RowMapPrefixAt(columns: seq<string>, row: Row, n: nat, name: string)
    requires n <= |columns| <= |row| && PrefixConverts(row, n) && name in columns[..n]
    ensures name in RowMapPrefix(columns, row, n)
    ensures RowMapPrefix(columns, row, n)[name] == Normalize(row[LastIndexOf(columns[..n], name)]).value
  {
    var prefix := columns[..n];
    assert prefix[..n - 1] == columns[..n - 1];
    if columns[n - 1] != name {
      assert name in columns[..n - 1];
      RowMapPrefixAt(columns, row, n - 1, name);
    }
  }

  /**
   * For a repeated column name the value comes from the last column of that
   * name: a later assignment to `json_row[column_name]` overwrites an earlier
   * one.
   */
  lemma RowMappingAt(columns: seq<string>, row: Row, name: string)
    requires |columns| <= |row| && RowConverts(columns, row) && name in columns
    ensures name in RowMapping(columns, row)
    ensures RowMapping(columns, row)[name] == Normalize(row[LastIndexOf(columns, name)]).value
  {
    assert columns[..|columns|] == columns;
    RowMapPrefixAt(columns, row, |columns|, name);
  }

  /** With distinct column names, column i holds the normalised value at i. */
  lemma RowMappingDistinct(columns: seq<string>, row: Row, i: nat)
    requires |columns| <= |row| && RowConverts(columns, row) && i < |columns|
    requires forall j, k :: 0 <= j < k < |columns| ==> columns[j] != columns[k]
    ensures columns[i] in RowMapping(columns, row)
    ensures RowMapping(columns, row)[columns[i]] == Normalize(row[i]).value
  {
    RowMappingAt(columns, row, columns[i]);
  }

  /** The row dicts hold no Decimal: every value went through the normalisation. */
  lemma RowMappingNormalised(columns: seq<string>, row: Row, name: string)
    requires |columns| <= |row| && RowConverts(columns, row) && name in RowMapping(columns, row)
    ensures !RowMapping(columns, row)[name].Dec?
  {
    RowMappingAt(columns, row, name);
  }

  // ---------------------------------------------------------------------
  // The SELECT reply and the dispatch

  /**
   * A row whose dict `json.dumps` can encode: the value that ends up under
   * each name (the one of the last column of that name) is encodable.
   */
  predicate RowEncodable(columns: seq<string>, row: Row)
    requires |columns| <= |row| && RowConverts(columns, row)
  {
    forall name :: name in columns ==> Encodable(Normalize(row[LastIndexOf(columns, name)]).value)
  }

  /**
   * `select_query` (main.py:63-67) with `create_json` (main.py:69-72): the
   * column names come from `cursor.description` (a TypeError when it is
   * None); converting the rows may raise InvalidOperation; a non-empty list
   * of row dicts is the data, an empty one the "No data found." envelope.
   */
  function SelectResponse(description: Option<seq<string>>, rows: seq<Row>): (r: Reply)
    requires description.Some? ==> RowsFit(description.value, rows)
    ensures description.None? ==> r == Raised(TypeError)
    ensures r.Json? ==> (r.envelope == NoData() <==> rows == [])
    ensures r.Json? && rows != [] ==>
      r.envelope.statusCode == 200 && r.envelope.body.Data? && |r.envelope.body.data| == |rows|
  {
    match description
    case None => Raised(TypeError)
    case Some(columns) =>
      if rows != [] && !RowsConvert(columns, rows) then Raised(InvalidOperation)
      else
        var data := if rows != [] then RowMappings(columns, rows) else [];
        if data != [] then Dumps(Rows(data)) else Dumps(NoData())
  }

  /**
   * `execute_query` (main.py:33-42): the driver runs the query first, so its
   * error wins; then the command is looked up in the table.  Every JSON reply
   * is one of the five envelopes, and an exception escapes only from a
   * statement the driver executed.
   */
  function Respond(o: Outcome, query: string): (r: Reply)
    requires WellFormed(o)
    ensures r.Json? ==> WellShaped(r.envelope)
    ensures r.Raised? ==> o.Executed?
  {
    match o
    case Failed(error) => Dumps(DbError(error))
    case Executed(description, rows) =>
      match Command(query)
      case None => Raised(IndexError)
      case Some(command) =>
        if command in SupportedCommands then
          match SupportedCommands[command]
          case OtherQuery => Dumps(OtherQueries())
          case SelectQuery => SelectResponse(description, rows)
        else Dumps(UnsupportedCommand())
  }

  // ---------------------------------------------------------------------
  // The imperative code

  /**
   * `create_json_helper` (main.py:74-81): for each fetched row, assign every
   * column's normalised value into a fresh dict, column by column, and
   * append the dict to the result list; a value whose normalisation raises
   * InvalidOperation ends the loops with that exception.
   */
  method CreateJsonHelper(results: seq<Row>, columns: seq<string>)
    returns (jsonResults: Result<seq<RowMap>, PyException>)
    requires RowsFit(columns, results)
    ensures jsonResults.Ok? <==> RowsConvert(columns, results)
    ensures jsonResults.Err? ==> jsonResults.error == InvalidOperation
    ensures jsonResults.Ok? ==> jsonResults.value == RowMappings(columns, results)
    ensures jsonResults.Ok? ==>
      forall k :: 0 <= k < |results| ==> jsonResults.value[k].Keys == ColumnNames(columns)
  {
    var done: seq<RowMap> := [];
    for i := 0 to |results|
      invariant |done| == i
      invariant forall k :: 0 <= k < i ==> RowConverts(columns, results[k])
      invariant forall k :: 0 <= k < i ==> done[k] == RowMapping(columns, results[k])
    {
      var row := results[i];
      var jsonRow: RowMap := map[];
      for j := 0 to |columns|
        invariant PrefixConverts(row, j)
        invariant jsonRow == RowMapPrefix(columns, row, j)
      {
        var value := Normalize(row[j]);
        if value.Err? {
          assert !RowConverts(columns, results[i]);
          return Err(value.error);
        }
        jsonRow := jsonRow[columns[j] := value.value];
      }
      done := done + [jsonRow];
    }
    return Ok(done);
  }

  /**
   * `create_json` (main.py:69-72): the helper's list (or its exception), or
   * [] when nothing was fetched.
   */
  method CreateJson(results: seq<Row>, columns: seq<string>)
    returns (jsonResults: Result<seq<RowMap>, PyException>)
    requires RowsFit(columns, results)
    ensures jsonResults.Ok? <==> RowsConvert(columns, results)
    ensures jsonResults.Err? ==> jsonResults.error == InvalidOperation
    ensures jsonResults.Ok? ==>
      jsonResults.value == RowMappings(columns, results) && |jsonResults.value| == |results|
  {
    if results != [] {
      jsonResults := CreateJsonHelper(results, columns);
    } else {
      jsonResults := Ok([]);
    }
  }
}
