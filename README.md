# postgres_json_python: the query convertor, modelled in Dafny

`PostgresJsonConvertor` (main.py) runs one SQL statement through psycopg2 and
returns a JSON envelope: a `status_code` and exactly one of `data`, `message`
or `error_message`. This project models the decision logic of that class.
That covers:

- extracting the command keyword (`query.upper().split()[0]`);
- dispatching it through the `SUPPORTED_COMMANDS` table;
- the SELECT reply;
- turning fetched rows into dicts of normalised values.

It then proves what that logic promises its callers.

Modules:

- `Wrappers` (wrappers.dfy): `Option` and `Result`.
- `Values` (values.dfy): the column values psycopg2 returns. A `Decimal` is
  modelled as `digits / 10^scale`. `Normalize` is
  `decimal_conversion_to_python_datatypes`. Python's truncating `int()` and the
  dividend-signed Decimal `% 1` are written out, not taken from Dafny's
  Euclidean operators. Python's default decimal context (precision 28) is
  assumed, so `value % 1` raises InvalidOperation when the integer part has
  29 digits or more; `Normalize` returns that exception. `Encodable` says
  whether `json.dumps` accepts a value.
- `Tokens` (tokens.dfy): `str.upper`, `str.isspace` and `str.split()`.
- `Envelopes` (envelopes.dfy): the five envelopes, kept as structure rather
  than JSON text. `Reply` is either a JSON envelope or a Python exception that
  escapes `execute_query`. `Dumps` is `json.dumps` reduced to "encodes, or
  raises TypeError".
- `Convertor` (convertor.dfy): the dispatch table.
  - `Respond` is `execute_query` and `SelectResponse` is `select_query`.
    Both are branching over expressions in the source, so they are functions.
  - `CreateJson` and `CreateJsonHelper` are the imperative row conversion,
    with nested loops. They are proved equal to the pure `RowMappings`, or to
    InvalidOperation when a value cannot be normalised.
- `ConvertorProperties` (properties.dfy): the promised behaviour, as lemmas.

The database driver is not modelled. What `cursor.execute` and
`cursor.fetchall` did is the input `Outcome`:

- `Failed(text)`: a `psycopg2.Error` was raised, and `text` is its `str`;
- `Executed(description, rows)`: the column names of `cursor.description`
  (or None), and the fetched rows.

`WellFormed` states what the driver guarantees: every fetched row has a value
for every described column.

Some replies are not one of the JSON envelopes:

- A blank query the driver accepted makes `.split()[0]` raise IndexError,
  which the `except psycopg2.Error` does not catch (`BlankQueryRaises`).
  psycopg2 itself rejects an empty query, which gives the 500 envelope.
- A SELECT without a result description, such as `SELECT ... INTO`, raises
  TypeError: line 64 iterates `cursor.description` before line 65 tests it
  for None (`SelectWithoutDescriptionRaises`).
- psycopg2 returns dates, byte buffers, lists and more besides integers,
  floats, strings, booleans and null. `json.dumps` raises TypeError on these,
  and the Decimals inside a numeric[] list are never normalised, so it raises
  on those too (`SelectRowsEncodable`, `DecimalArrayRaises`).
- A numeric whose integer part has more than 28 digits
  (`SELECT factorial(30)`) makes `value % 1` raise `decimal.InvalidOperation`.
  That is not a `psycopg2.Error`, so it escapes `execute_query`
  (`LargeDecimalRaises`).

## Model

| member | source | states |
|---|---|---|
| Values.TruncateBounds | main.py:50 | `int(value)` (`Truncate`) truncates toward zero: it keeps the sign, its magnitude times 10^scale does not exceed the digits' magnitude, and one more would |
| Values.IntegralIffDivisible | main.py:49-50 | the `value % 1 == 0` test (`IsIntegral`), a truncated remainder, holds exactly when 10^scale divides the digits, and then `int(value)` is the exact quotient |
| Values.DivisionImpossibleIffLarge | main.py:49 | `value % 1` raises InvalidOperation (`DivisionImpossible`) exactly when the digits' magnitude is at least 10^(28 + scale), that is, when the integer part has more than 28 digits |
| Values.Normalize | main.py:47-53 | a Decimal with more than 28 integer digits raises InvalidOperation, and nothing else raises; the result is never a Decimal; a non-Decimal is returned unchanged; a Decimal becomes an int exactly when its value is an integer, and that int times 10^scale is its digits; otherwise it becomes the float tagged with that decimal |
| Values.TruncateExact | main.py:49-50 | a decimal whose digits are k * 10^scale passes the integrality test and truncates to k |
| Values.TrailingZerosIrrelevant | main.py:47-51 | adding trailing zeros ("10" vs "10.00") never changes whether the value raises or becomes an int, nor which int it becomes |
| Values.NormalizeExamples | main.py:47-51 | 10.00 becomes 10; 10.50 becomes a float; -3.00 becomes -3 |
| Values.PrecisionExamples | main.py:49 | 30! raises InvalidOperation; 10^28 - 1 becomes an int; -10^28 raises |
| Values.NormalizeIdempotent | main.py:47-53 | normalising a normalised value changes nothing |
| Values.NormalizedScalarEncodable | main.py:47-53 | after normalisation a value `json.dumps` refuses (`Encodable`) is an object of another type or a list holding one or a Decimal; every other value is encodable |
| Tokens.UpperChar | main.py:37 | one character of `str.upper`: a-z become A-Z (code point minus 32), A-Z stay, U+0131 becomes I and U+017F becomes S; no result is a lowercase ASCII letter, and every other character is unchanged |
| Tokens.Upper | main.py:37 | `str.upper` keeps the length and uppercases each character in place |
| Tokens.IsSpaceAscii | main.py:37 | below U+0080 the separators of `str.split()` (`IsSpace`) are exactly tab, LF, VT, FF, CR, \x1c-\x1f and space |
| Tokens.LetterIsNotSpace | main.py:37 | no ASCII letter is a separator |
| Tokens.Split | main.py:37 | every token of `str.split()` is a non-empty run without whitespace; there are no tokens exactly when the string is all whitespace |
| Tokens.FirstToken | main.py:37 | `split()[0]` is missing exactly for an all-whitespace string, and is otherwise a token |
| Tokens.FirstTokenShape | main.py:37 | `split()[0]`, when present, is the token that starts after the leading whitespace and ends at whitespace or at the end |
| Tokens.UpperSplit | main.py:37 | uppercasing then splitting gives the uppercased tokens of splitting |
| Tokens.FirstTokenOfWord | main.py:37 | a word followed by whitespace or by nothing yields its own uppercase as the command |
| Tokens.UpperIdempotent | main.py:37 | uppercasing twice is uppercasing once |
| Envelopes.EnvelopesWellShaped | main.py:55-67 | the envelopes of `other_queries` (200), `unsupported_command` (400), the empty SELECT (204), the SELECT data (200, the given data) and the driver error (500, the given text) are each one of the five promised shapes |
| Convertor.Command | main.py:37 | there is no command exactly when the query is all whitespace; otherwise the command is a non-empty token without whitespace |
| Convertor.RowMapPrefix | main.py:78-79 | after the first n columns are assigned, the dict's keys are exactly those n column names |
| Convertor.RowMapping | main.py:77-79 | a row dict's keys are exactly the column names |
| Convertor.LastIndexOf | main.py:78-79 | the position found holds the name, and no later column has that name |
| Convertor.RowMappingAt | main.py:78-79 | each name maps to the normalised value of the last column with that name, so a later duplicate overwrites an earlier one |
| Convertor.RowMappingDistinct | main.py:78-79 | with distinct column names, column i's name maps to the normalised value at position i |
| Convertor.RowMappingNormalised | main.py:79 | no value in a row dict is a Decimal |
| Convertor.RowMappings | main.py:74-81 | one dict per fetched row |
| Convertor.CreateJsonHelper | main.py:74-81 | the nested loops raise InvalidOperation exactly when some value cannot be normalised; otherwise they build exactly one dict per row, in fetch order, each equal to the row's specified mapping and keyed by the column names |
| Convertor.CreateJson | main.py:69-72 | the helper's result for a non-empty fetch, and the empty list otherwise; raises exactly when some value cannot be normalised; the list's length is the number of rows |
| Convertor.SelectResponse | main.py:63-67 | a None description raises TypeError; a JSON reply is the 204 envelope exactly when nothing was fetched, and otherwise a 200 data envelope with one dict per row |
| Convertor.Respond | main.py:33-42 | every JSON reply of `execute_query` is one of the five envelopes, and an exception escapes only from a statement the driver executed |
| ConvertorProperties.CommandIsFirstWord | main.py:37 | the dispatch key is the query's first whitespace-separated token, uppercased, and there is none for a blank query |
| ConvertorProperties.CaseInsensitive | main.py:37-38 | for the same driver outcome, a query and its uppercase get the same reply |
| ConvertorProperties.SelectInAnyCase | main.py:37-38 | "select * from t" and "SELECT * FROM t" both have the command SELECT |
| ConvertorProperties.DriverErrorWins | main.py:35-42 | a driver error gives the 500 envelope with its text, for every query |
| ConvertorProperties.OtherCommandsSucceed | main.py:15-20 | UPDATE, CREATE, INSERT, DELETE and DROP always give the 200 "Query executed successfully." envelope, whatever the rows |
| ConvertorProperties.UnknownCommandUnsupported | main.py:38-40 | a command outside the table gives the 400 "Unsupported SQL command." envelope |
| ConvertorProperties.TableIsExact | main.py:15-23 | the table `SupportedCommands` holds exactly the six keywords, and only SELECT goes to the select handler |
| ConvertorProperties.BlankQueryRaises | main.py:37 | a blank query the driver accepted raises IndexError |
| ConvertorProperties.SelectDispatched | main.py:38-39 | a SELECT is answered by the select handler |
| ConvertorProperties.SelectWithoutDescriptionRaises | main.py:64 | a SELECT with a None description raises TypeError |
| ConvertorProperties.SelectNoRows | main.py:63-72 | a SELECT that fetched no rows gives the 204 "No data found." envelope |
| ConvertorProperties.SelectRowsEncodable | main.py:63-81 | with rows fetched, a value that cannot be normalised makes the reply InvalidOperation; otherwise the reply is the 200 data envelope exactly when every row dict can be encoded, and TypeError when not |
| ConvertorProperties.SelectWithRows | main.py:63-81 | a SELECT with convertible, encodable rows gives 200 with data; the data has as many dicts as rows; each dict is keyed by the column names and holds the last same-named column's normalised value |
| ConvertorProperties.DuplicateColumnExample | main.py:78-79 | columns a, b, a over 1, null, 2 give {a: 2, b: null} |
| ConvertorProperties.DecimalArraySelect | main.py:47-53 | the select reply for a numeric[] value holding a Decimal is TypeError |
| ConvertorProperties.DecimalArrayRaises | main.py:47-53 | a numeric[] value holding a Decimal is not normalised, so the reply is TypeError |
| ConvertorProperties.LargeDecimalSelect | main.py:49 | the select reply for a row holding 30! is InvalidOperation |
| ConvertorProperties.LargeDecimalRaises | main.py:49 | a SELECT returning 30! raises InvalidOperation out of `execute_query` |

## Left out

- Connection handling is not modelled. This covers the psycopg2 connection,
  `connect`, `close`, `__enter__` and `__exit__` (main.py:25-30, 84-98), and
  the `with self.connection, ...cursor()` scope (main.py:34), including its
  commit on success and rollback on an exception. These are calls into the
  driver. Note that `close` never resets `self.connection` to None. Calling
  `execute_query` before `connect` fails on `None`; that is not modelled
  either.
- A statement is executed before its command is looked at, and committed
  when `execute_query` returns normally (the `with self.connection` block of
  main.py:34 commits on exit and rolls back on an exception). So a statement
  the table does not know (`WITH ...`, `ALTER ...`) takes effect and still
  gets the 400 envelope, while one whose reply raises is rolled back. The
  model has no database state to show this. A `psycopg2.Error` raised by that
  commit (a deferred constraint, say) escapes `execute_query`, because the
  `except` at main.py:41 is inside the `with`; `DriverErrorWins` covers only
  errors from `cursor.execute`.
- The JSON text `json.dumps` produces is not modelled, nor the key order of
  each dict. The envelope is kept as structure, and a dict is a Dafny `map`.
- `float(value)` is not modelled. A non-integral Decimal, and a float the
  driver returns, is `Float(near)`: the double nearest to `near`. The
  rounding is not modelled.
- Non-finite Decimals (NaN, Infinity), which PostgreSQL `numeric` can hold,
  are not modelled. Only finite decimals are.
- Dicts that psycopg2 returns for json and jsonb columns are not modelled;
  `Other` stands for any value `json.dumps` cannot encode.
- `Tokens.UpperChar` maps a-z, U+0131 and U+017F, whose Python uppercase is
  an ASCII letter. It leaves every other character unchanged. Python also
  uppercases other non-ASCII letters, some into several characters. None of
  those results spells a table keyword, so they could change a token only
  into another unsupported one.
- Errors raised by `cursor.fetchall` are not modelled. A `psycopg2.Error`
  raised there would give the 500 envelope, like `Failed`. But psycopg2 also
  converts column values while fetching, and that can raise errors that are
  not `psycopg2.Error`. For example, a BC date or one with a year beyond 9999
  raises ValueError. These escape `execute_query`. The model has no `Outcome`
  for them.
- Values.Normalize: only Python's default decimal context (precision 28, no
  traps changed) is modelled. A program that changes the context changes
  where InvalidOperation starts.
- Rows shorter than the column list are excluded by `WellFormed`, because
  psycopg2 never returns them. In the source they would raise IndexError.
