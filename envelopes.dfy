/**
 * The JSON envelopes `execute_query` returns, kept as structure rather than
 * as the text `json.dumps` would produce, and the Python exceptions that
 * escape it.
 */
module Envelopes {
  import opened Values

  /** One fetched row as a dict from column name to normalised value. */
  type RowMap = map<string, Value>

  /** The one field an envelope carries beside `status_code`. */
  datatype Body =
    | Message(message: string)
    | Data(data: seq<RowMap>)
    | ErrorMessage(errorMessage: string)

  datatype Envelope = Envelope(statusCode: int, body: Body)

  /** What a call of `execute_query` ends in: a JSON string, or a raised exception. */
  datatype Reply = Json(envelope: Envelope) | Raised(exception: PyException)

  /** `other_queries` (main.py:55-57). */
  function OtherQueries(): Envelope
  {
    Envelope(200, Message("Query executed successfully."))
  }

  /** `unsupported_command` (main.py:59-61). */
  function UnsupportedCommand(): Envelope
  {
    Envelope(400, Message("Unsupported SQL command."))
  }

  /** The reply of `select_query` when nothing was fetched (main.py:67). */
  function NoData(): Envelope
  {
    Envelope(204, Message("No data found."))
  }

  /** The reply of `select_query` with rows (main.py:66). */
  function Rows(data: seq<RowMap>): Envelope
  {
    Envelope(200, Data(data))
  }

  /** The handler of `psycopg2.Error` (main.py:41-42), carrying `str(e)`. */
  function DbError(text: string): Envelope
  {
    Envelope(500, ErrorMessage(text))
  }

  /** Whether `json.dumps` can encode every value the envelope holds. */
  predicate EnvelopeEncodable(e: Envelope)
  {
    match e.body
    case Data(rows) =>
      forall k, name :: 0 <= k < |rows| && name in rows[k] ==> Encodable(rows[k][name])
    case _ => true
  }

  /** `json.dumps(e)`: the envelope, or the TypeError it raises on a value it cannot encode. */
  function Dumps(e: Envelope): Reply
  {
    if EnvelopeEncodable(e) then Json(e) else Raised(TypeError)
  }

  /**
   * The five envelopes are well shaped, are told apart by their status code
   * and body kind, and a driver error keeps its text.
   */
  lemma EnvelopesWellShaped(data: seq<RowMap>, text: string)
    ensures WellShaped(OtherQueries()) && WellShaped(UnsupportedCommand()) && WellShaped(NoData())
    ensures WellShaped(Rows(data)) && WellShaped(DbError(text))
    ensures OtherQueries().statusCode == 200 && OtherQueries().body.Message?
    ensures UnsupportedCommand().statusCode == 400 && NoData().statusCode == 204
    ensures Rows(data).statusCode == 200 && Rows(data).body.Data? && Rows(data).body.data == data
    ensures DbError(text).statusCode == 500 && DbError(text).body.errorMessage == text
  {
  }

  /**
   * The envelopes the adapter promises: a status code and exactly one of
   * data, message or error message, with 200 for data and 500 for a
   * driver error.
   */
  predicate WellShaped(e: Envelope)
  {
    match e.body
    case Data(_) => e.statusCode == 200
    case ErrorMessage(_) => e.statusCode == 500
    case Message(m) =>
      (e.statusCode, m) in {(200, "Query executed successfully."), (204, "No data found."),
                            (400, "Unsupported SQL command.")}
  }
}
