/**
 * What `execute_query` promises its callers, stated over the model of
 * module Convertor: which envelope each kind of query gets and what the
 * data of a SELECT holds.
 */
module ConvertorProperties {
  import opened Wrappers
  import opened Values
  import opened Tokens
  import opened Envelopes
  import opened Convertor

  /** The five keywords that share the generic success handler. */
  const OtherCommands: set<string> := {"UPDATE", "CREATE", "INSERT", "DELETE", "DROP"}

  /**
   * The command is the first whitespace-separated token of the query,
   * uppercased; a query of whitespace only has none.
   */
  lemma CommandIsFirstWord(query: string)
    ensures Command(query) == if Split(query) == [] then None else Some(Upper(Split(query)[0]))
  {
    UpperSplit(query);
  }

  /**
   * Case does not matter: for the same driver outcome, a query and its
   * uppercased form get the same reply.
   */
  lemma CaseInsensitive(o: Outcome, query: string)
    requires WellFormed(o)
    ensures Respond(o, query) == Respond(o, Upper(query))
  {
    UpperIdempotent(query);
  }

  /** "select * from t" and "SELECT * FROM t" are both dispatched as SELECT. */
  lemma SelectInAnyCase()
    ensures Command("select * from t") == Some("SELECT")
    ensures Command("SELECT * FROM t") == Some("SELECT")
  {
    LowerSelect();
    UpperSelect();
  }

  lemma LowerSelect()
    ensures Command("select * from t") == Some("SELECT")
  {
    assert "select" + " * from t" == "select * from t";
    assert IsToken("select");
    var u := Upper("select");
    assert u[0] == UpperChar('s') == 'S' && u[1] == UpperChar('e') == 'E';
    assert u[2] == UpperChar('l') == 'L' && u[3] == UpperChar('e') == 'E';
    assert u[4] == UpperChar('c') == 'C' && u[5] == UpperChar('t') == 'T';
    assert u == "SELECT";
    FirstTokenOfWord("select", " * from t");
  }

  lemma UpperSelect()
    ensures Command("SELECT * FROM t") == Some("SELECT")
  {
    assert "SELECT" + " * FROM t" == "SELECT * FROM t";
    assert IsToken("SELECT");
    assert Upper("SELECT") == "SELECT";
    FirstTokenOfWord("SELECT", " * FROM t");
  }

  /**
   * A driver error is reported as the 500 envelope with its text, whatever
   * the query's command: `cursor.execute` runs before the command is looked at.
   */
  lemma DriverErrorWins(error: string, query: string)
    ensures Respond(Failed(error), query) == Json(Envelope(500, ErrorMessage(error)))
  {
  }

  /**
   * UPDATE, CREATE, INSERT, DELETE and DROP all get the one success
   * envelope, whatever the statement did and whatever rows there are.
   */
  lemma OtherCommandsSucceed(o: Outcome, query: string)
    requires WellFormed(o) && o.Executed?
    requires Command(query).Some? && Command(query).value in OtherCommands
    ensures Respond(o, query) == Json(Envelope(200, Message("Query executed successfully.")))
  {
  }

  /** A first token outside the table gets the 400 envelope. */
  lemma UnknownCommandUnsupported(o: Outcome, query: string)
    requires WellFormed(o) && o.Executed?
    requires Command(query).Some? && Command(query).value !in SupportedCommands
    ensures Respond(o, query) == Json(Envelope(400, Message("Unsupported SQL command.")))
  {
  }

  /**
   * The table holds exactly six keywords: a token is dispatched to the
   * select handler exactly when it is SELECT, to the generic handler exactly
   * when it is one of the other five.
   */
  lemma TableIsExact(command: string)
    ensures command in SupportedCommands <==> command in OtherCommands || command == "SELECT"
    ensures command in SupportedCommands ==>
      (SupportedCommands[command] == SelectQuery <==> command == "SELECT")
  {
  }

  /**
   * A query of nothing but whitespace that the driver let through makes
   * `.split()[0]` raise IndexError, which `execute_query` does not catch.
   */
  lemma BlankQueryRaises(o: Outcome, query: string)
    requires WellFormed(o) && o.Executed?
    requires forall i :: 0 <= i < |query| ==> IsSpace(query[i])
    ensures Respond(o, query) == Raised(IndexError)
  {
    forall i | 0 <= i < |query| ensures IsSpace(Upper(query)[i]) {
      UpperCharKeepsSpace(query[i]);
    }
  }

  /** A SELECT is answered by the select handler. */
  lemma SelectDispatched(o: Outcome, query: string)
    requires WellFormed(o) && o.Executed? && Command(query) == Some("SELECT")
    ensures Respond(o, query) == SelectResponse(o.description, o.rows)
  {
  }

  /** A SELECT whose description is None fails on line 64 with a TypeError. */
  lemma SelectWithoutDescriptionRaises(rows: seq<Row>, query: string)
    requires Command(query) == Some("SELECT")
    ensures Respond(Executed(None, rows), query) == Raised(TypeError)
  {
  }

  /** A SELECT that fetched no rows gets the 204 envelope. */
  lemma SelectNoRows(columns: seq<string>, query: string)
    requires Command(query) == Some("SELECT")
    ensures Respond(Executed(Some(columns), []), query) == Json(Envelope(204, Message("No data found.")))
  {
  }

  /**
   * On a non-empty row set: a value whose normalisation raises makes the
   * reply InvalidOperation; otherwise the data can be encoded exactly when
   * every row's dict can, and if not `json.dumps` raises TypeError.
   */
  lemma {:induction false} SelectRowsEncodable(columns: seq<string>, rows: seq<Row>)
    requires rows != [] && RowsFit(columns, rows)
    ensures !RowsConvert(columns, rows) ==>
      SelectResponse(Some(columns), rows) == Raised(InvalidOperation)
    ensures RowsConvert(columns, rows) && (forall k :: 0 <= k < |rows| ==> RowEncodable(columns, rows[k])) ==>
      SelectResponse(Some(columns), rows) == Json(Rows(RowMappings(columns, rows)))
    ensures RowsConvert(columns, rows) && !(forall k :: 0 <= k < |rows| ==> RowEncodable(columns, rows[k])) ==>
      SelectResponse(Some(columns), rows) == Raised(TypeError)
  {
    if RowsConvert(columns, rows) {
      var data := RowMappings(columns, rows);
      assert data != [];
      if forall k :: 0 <= k < |rows| ==> RowEncodable(columns, rows[k]) {
        forall k, name | 0 <= k < |data| && name in data[k]
          ensures Encodable(data[k][name])
        {
          RowMappingAt(columns, rows[k], name);
        }
      } else {
        var k, name :| 0 <= k < |rows| && name in columns
          && !Encodable(Normalize(rows[k][LastIndexOf(columns, name)]).value);
        RowMappingAt(columns, rows[k], name);
        assert data[k] == RowMapping(columns, rows[k]);
        assert name in data[k] && !Encodable(data[k][name]);
      }
    }
  }

  /**
   * A SELECT with at least one fetched row, all of whose values `json.dumps`
   * can encode, gets the 200 envelope whose data has one dict per row in
   * fetch order; each dict's keys are the column names and each name maps to
   * the normalised value of the last column of that name.
   */
  lemma SelectWithRows(columns: seq<string>, rows: seq<Row>, query: string)
    requires Command(query) == Some("SELECT")
    requires rows != [] && RowsFit(columns, rows) && RowsConvert(columns, rows)
    requires forall k :: 0 <= k < |rows| ==> RowEncodable(columns, rows[k])
    ensures var reply := Respond(Executed(Some(columns), rows), query);
      reply.Json? && reply.envelope.statusCode == 200 && reply.envelope.body.Data?
      && var data := reply.envelope.body.data;
      |data| == |rows|
      && (forall k :: 0 <= k < |rows| ==> data[k].Keys == ColumnNames(columns))
      && (forall k, name :: 0 <= k < |rows| && name in columns ==>
            data[k][name] == Normalize(rows[k][LastIndexOf(columns, name)]).value)
  {
    SelectRowsEncodable(columns, rows);
    var data := RowMappings(columns, rows);
    forall k, name | 0 <= k < |rows| && name in columns
      ensures name in data[k] && data[k][name] == Normalize(rows[k][LastIndexOf(columns, name)]).value
    {
      RowMappingAt(columns, rows[k], name);
    }
  }

  /** Two columns named "a": the dict keeps the value of the second. */
  lemma DuplicateColumnExample()
    ensures RowMapping(["a", "b", "a"], [Int(1), Null, Int(2)]) == map["a" := Int(2), "b" := Null]
  {
    var columns, row: Row := ["a", "b", "a"], [Int(1), Null, Int(2)];
    assert RowMapPrefix(columns, row, 1) == map["a" := Int(1)];
    assert RowMapPrefix(columns, row, 2) == map["a" := Int(1), "b" := Null];
    assert RowMapPrefix(columns, row, 3) == map["a" := Int(2), "b" := Null];
  }

  /** The select reply for a numeric[] column holding 10.50. */
  lemma DecimalArraySelect()
    ensures SelectResponse(Some(["prices"]), [[Array([Dec(Decimal(1050, 2))])]]) == Raised(TypeError)
  {
    var columns, rows := ["prices"], [[Array([Dec(Decimal(1050, 2))])]];
    var value := Array([Dec(Decimal(1050, 2))]);
    assert LastIndexOf(columns, "prices") == 0;
    assert value.items[0].Dec?;
    assert Normalize(value) == Ok(value) && !Encodable(value);
    assert RowConverts(columns, rows[0]) && !RowEncodable(columns, rows[0]);
    SelectRowsEncodable(columns, rows);
  }

  /**
   * A numeric[] column: psycopg2 gives a list of Decimals, which the
   * normalisation does not enter, so `json.dumps` raises TypeError.
   */
  lemma DecimalArrayRaises(query: string)
    requires Command(query) == Some("SELECT")
    ensures Respond(Executed(Some(["prices"]), [[Array([Dec(Decimal(1050, 2))])]]), query) == Raised(TypeError)
  {
    SelectDispatched(Executed(Some(["prices"]), [[Array([Dec(Decimal(1050, 2))])]]), query);
    DecimalArraySelect();
  }

  /** The select reply for a column holding 30!. */
  lemma LargeDecimalSelect()
    ensures SelectResponse(Some(["n"]), [[Dec(Decimal(265252859812191058636308480000000, 0))]])
      == Raised(InvalidOperation)
  {
    var columns, rows := ["n"], [[Dec(Decimal(265252859812191058636308480000000, 0))]];
    PrecisionExamples();
    assert Normalize(rows[0][0]).Err?;
  }

  /**
   * A numeric whose integer part has more digits than the default decimal
   * context's precision of 28: 30! is 33 digits long, so `value % 1` raises
   * InvalidOperation and the whole SELECT raises it.
   */
  lemma LargeDecimalRaises(query: string)
    requires Command(query) == Some("SELECT")
    ensures Respond(Executed(Some(["n"]), [[Dec(Decimal(265252859812191058636308480000000, 0))]]), query)
      == Raised(InvalidOperation)
  {
    SelectDispatched(Executed(Some(["n"]), [[Dec(Decimal(265252859812191058636308480000000, 0))]]), query);
    LargeDecimalSelect();
  }
}
