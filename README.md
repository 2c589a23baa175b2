# postgres-csvlog: the per-record enrichment, in Dafny

postgres-csvlog turns a PostgreSQL csvlog file into a stream of JavaScript
objects. A CSV reader binds each row's 23 fields to the column names. The
`PostgresCSVLog` transform stream then rewrites every record in place:

- `session_start_time` and `log_time` become Date objects.
- `process_id` and `session_line_num` become numbers.
- When `sql_state_code` is `"00000"` and `message` is a statement-duration
  message (`duration: <d.d> ms  plan: <payload>`), the stream adds `duration`.
  It then sets `query` from a `Query Text:` payload, or sets `plan` (and
  `query`) from a JSON payload. `query` is also a CSV column, so setting it
  overwrites the column's value.

Each record is then pushed to the readable side.

This project models that step.

- `Patterns` models the two regular expressions as explicit matchers. Each
  returns the capture groups the JavaScript engine returns. Each is proved
  sound and complete against a description of the strings its expression
  accepts. `Patterns` also gives the value of the captured decimal.
- `JsValues` models the JavaScript values a record can hold and property
  access on them. JSON.parse, `new Date` and unary plus are the functions of
  a `Runtime` value passed in.
- `CsvLog` models the column schema and the coercions, and states
  `_transform` as a function `Enrich` of the received fields. It also holds
  the lemmas about `Enrich`: the gate, the two payload formats and their
  priority, the absorbed parse failure, and the set of fields that can
  change.
- `CsvLogStream` holds the stream class. `Record` is the shared mutable
  object. `PostgresCSVLog.Transform` rewrites `record.fields` with the same
  two loops and conditional assignments as the JavaScript, and it appends
  to `output` what is pushed. It is proved to leave the record as `Enrich`
  says and to push it exactly when nothing threw.

Some consequences of index.js that the model keeps:

- The CSV reader binds 23 column names (index.js:60-84).
- A JSON plan without a `Query Text` member sets `query` to undefined,
  overwriting the value of the CSV column `query`.
- A parsed plan that is `null` is still stored as `plan`. Reading its
  `Query Text` member then throws, the throw is caught, and `query` keeps
  its value.
- `message.match` throws when the gate is open and the message is not a
  string. Records that come from the CSV reader always carry a string
  message.

## Model

| member | source | states |
|---|---|---|
| Patterns.LeadingRun | index.js:8 | a greedy `\d+`/`\s*` run takes the longest prefix in its class: every character taken is in the class, and the next one is not |
| Patterns.RunUnique | index.js:8 | that longest run is the only length with this property, so the greedy quantifier never needs to backtrack |
| Patterns.TrimStart | index.js:8-9 | `\s*` before a capture group removes exactly the leading whitespace: the removed prefix is all whitespace, and the rest is empty or starts with a non-whitespace character |
| Patterns.Literal | index.js:8-9 | a literal token is consumed exactly when the text starts with it, and the text is the token followed by what is left |
| Patterns.Digits | index.js:8 | `\d+` consumes a non-empty maximal ASCII digit run and fails exactly when the text does not start with a digit |
| Patterns.Spaces | index.js:8 | `\s+` consumes a non-empty maximal whitespace run and fails exactly when the text does not start with whitespace |
| Patterns.MatchDuration | index.js:8 | both digit groups of a match are non-empty ASCII digits, and the captured remainder is empty or starts with a non-whitespace character |
| Patterns.MatchNumber | index.js:8 | a matched number is `\d+` `.` `\d+` followed by the rest of the text, and that rest does not start with a digit |
| Patterns.MatchNumberComplete | index.js:8 | every `\d+.\d+` followed by a non-digit matches, with exactly those digit strings |
| Patterns.MatchUnit | index.js:8 | a matched unit captures a suffix of the text that is at least eight characters shorter (`ms`, one whitespace, `plan:`) and is empty or starts with a non-whitespace character |
| Patterns.MatchUnitSound | index.js:8 | a matched unit is whitespace, `ms`, non-empty whitespace, `plan:`, whitespace, then the captured remainder |
| Patterns.MatchUnitComplete | index.js:8 | every such unit matches, capturing the tail with its leading whitespace removed |
| Patterns.MatchDurationSound | index.js:8 | every match is a message of the shape `duration: ` whole `.` frac s1 `ms` s2 `plan:` s3 rest |
| Patterns.MatchDurationComplete | index.js:8 | every message of that shape matches, capturing whole, frac and the remainder without its leading whitespace |
| Patterns.IntegerDurationNeverMatches | index.js:8 | a duration written without a decimal point (`duration: 12 ms`) never matches |
| Patterns.MatchQueryText | index.js:9 | the query text pattern matches exactly when the payload starts with `Query Text:`, and the capture is empty or starts with a non-whitespace character |
| Patterns.MatchQueryTextSound | index.js:9 | every match is `Query Text:`, whitespace, then the captured text |
| Patterns.MatchQueryTextComplete | index.js:9 | every such payload matches, capturing the text after the label with its leading whitespace stripped |
| Patterns.DigitsValue | index.js:35 | a digit string of length k denotes a natural number below 10^k |
| Patterns.DigitsValueConcat | index.js:35 | appending digits f to digits w gives the value of w shifted left by one decimal place per digit of f, plus the value of f: positional notation read from the left |
| Patterns.DecimalValue | index.js:35 | the value of `whole.frac` lies between the value of `whole` and that value plus one |
| Patterns.DecimalValueScaled | index.js:35 | the decimal `whole.frac` equals the number its digits denote without the point, divided by 10^k for k digits after the point |
| JsValues.Get | index.js:24 | reading a missing property of the record yields undefined; otherwise it yields the stored value |
| JsValues.GetProperty | index.js:43 | `plan['Query Text']` throws exactly for null and undefined, yields the member (or undefined) for an object, and undefined for every other value |
| CsvLog.Bind | index.js:59-85 | the object built from a row has exactly the given names as keys, and the last name holds the last field |
| CsvLog.BindFields | index.js:59-85 | binding distinct names to a row of the same length binds each name to the field at its position |
| CsvLog.BindColumns | index.js:59-85 | the record built from a 23-field row has exactly the column names as keys, and each name is bound to the field at its position |
| CsvLog.ColumnsDistinct | index.js:60-84 | no column name appears twice, so no field of a row is lost |
| CsvLog.Convert | index.js:23-29 | the date loop stores Date objects and the numeric loop stores numbers |
| CsvLog.Overwrite | index.js:23-29 | a field loop keeps every key the record had, and the last name it visits holds a Date (date loop) or a number (numeric loop) |
| CsvLog.OverwriteFields | index.js:23-29 | after a field loop the record has gained exactly the visited names, each of them holds a converted value, and every other field is as it was |
| CsvLog.Coerce | index.js:23-29 | after both loops the record has its own keys plus the four coerced columns, the two date columns hold Date objects and the two numeric columns hold numbers |
| CsvLog.LoopsCoerce | index.js:10-29 | running the two field loops in order converts each of the four columns once, from the value it held on entry |
| CsvLog.OverwriteTwo | index.js:23-29 | one pass of a field loop over two names converts the first name, then the second from the record as the first step left it |
| CsvLog.CoerceKeeps | index.js:23-29 | the coercions leave every other field as received |
| CsvLog.DurationValue | index.js:35 | the model's value of `+match[1]` is a finite, non-negative number: the captured digits read without the point, divided by ten for every digit after the point |
| CsvLog.PayloadFields | index.js:36-49 | the payload can write only `query` and `plan` |
| CsvLog.Derived | index.js:33-50 | a message can write only `duration`, `query` and `plan` |
| CsvLog.DurationMessage | index.js:32-34 | a duration match is found only with the gate open and a string message |
| CsvLog.GateOpen | index.js:32 | the gate opens exactly when `sql_state_code` is present and is the string `00000`; a missing column or any other value, a number included, keeps it closed |
| CsvLog.Enrich | index.js:22-55 | on every path the result is the coerced record overlaid with the derived fields, and it throws exactly when the gate is open and the message is not a string |
| CsvLog.GateClosedAddsNothing | index.js:32 | with `sql_state_code` not exactly `"00000"` the record is pushed, and every field but the four coerced ones (so `duration`, `plan`, `query` and `message`) is as received |
| CsvLog.DurationSetIffMatch | index.js:32-35 | inside the gate with a string message, `duration` is written if and only if the message matches the duration pattern, and it holds the captured value; without a match only the coerced columns change |
| CsvLog.QueryTextTakesPriority | index.js:36-39 | a payload starting with `Query Text:` sets `query` to the text after the label with its leading whitespace stripped, and `plan` is not written |
| CsvLog.PlanOnlyFromJson | index.js:37-49 | `plan` changes only when the message matched, the payload is not query text and parses as JSON, and then it is the parsed value; the two payload formats never both apply |
| CsvLog.ParseFailureAbsorbed | index.js:40-53 | a payload that is neither query text nor JSON leaves `duration` written, `plan`, `query` and `message` as received, and the record pushed |
| CsvLog.ParsedPlanSetsQuery | index.js:41-45 | a payload that parses sets `plan` to the parsed value and `query` to its `Query Text` member (undefined when missing or not an object); a `null` plan leaves `query` as received |
| CsvLog.OnlyWritableFieldsChange | index.js:22-55 | only `log_time`, `session_start_time`, `process_id`, `session_line_num`, `duration`, `query` and `plan` can differ; every other field is as received, and no other key is added |
| CsvLog.CoercedColumnsTyped | index.js:23-33 | the record throws exactly when the gate is open and the message is not a string; on every path the date columns hold Date objects and the numeric columns hold numbers converted from the received values |
| CsvLog.CsvRowPassesThrough | index.js:22-55 | a record built from a CSV row is always pushed, and every column outside the writable ones keeps its field from the row |
| CsvLogStream.PostgresCSVLog.constructor | index.js:14-20 | a new stream has pushed nothing |
| CsvLogStream.PostgresCSVLog.Transform | index.js:22-55 | the loops and assignments leave the record exactly as `Enrich` describes; the method throws exactly when `Enrich` does; one record is appended to `output` when it does not throw, and none when it does |
| CsvLogStream.EnrichQueryTextSteps | index.js:35-39 | assigning `duration` then `query` gives the enrichment of a query-text message |
| CsvLogStream.EnrichPlanSteps | index.js:35-43 | assigning `duration`, `plan`, then `query` (unless the lookup throws) gives the enrichment of a JSON-plan message |
| CsvLogStream.EnrichUnparsedSteps | index.js:35-48 | assigning only `duration` gives the enrichment of a message whose payload does not parse |

## Left out

- The stream plumbing is not modelled: the `stream.Transform` options, `setImmediate(callback)`, back-pressure and `multipipe` (index.js:13-20, 54, 86-87). `PostgresCSVLog.output` stands for what `this.push` delivered.
- CSV tokenisation by `csv.parse` is not modelled (index.js:58-59). `CsvLog.BindColumns` starts from a row of exactly 23 fields. Rows with another field count follow the CSV library's own rules, which are not part of this model.
- JSON.parse, `new Date(v)` and unary plus are opaque functions of `JsValues.Runtime`. Date parsing and the string-to-number conversion (NaN, hex, the empty string) are not modelled. JSON.parse is not constrained to return only JSON-shaped values.
- CsvLog.DurationValue: keeps the exact decimal value of the captured digits. It does not model the rounding of `+match[1]` to the nearest binary64 number (a decimal such as 0.1 has no exact binary64 value), nor its overflow to Infinity when the whole part exceeds the largest binary64 number (about 1.8e308).
- The throw when `message` is not a string inside the gate is modelled as `Outcome.Threw`. What happens to the exception outside `_transform` is not modelled.
- `_.size(match)` is modelled as "the match succeeded". A successful match is always a three-element array.
- JavaScript strings are sequences of UTF-16 code units; a Dafny `string` holds Unicode scalar values. Lone surrogates cannot be represented, and lengths of text outside the Basic Multilingual Plane differ. No modelled decision depends on either.
- `Fields` is a map, so the insertion order of the JavaScript object's keys is not modelled. In index.js `duration` and `plan` are appended after the 23 columns.
