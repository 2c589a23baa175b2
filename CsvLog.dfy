/**
  The per-record enrichment of a PostgreSQL csvlog row (index.js), stated as
  pure functions over the record's fields: the column schema, the in-place
  coercions of four columns, and the recognition of a statement-duration
  message with its two payload formats. The stream class that applies this
  to each record in place is in CsvLogStream.
 */
module CsvLog {
  import opened Wrappers
  import opened JsValues
  import opened Patterns

  type Fields = map<string, Value>

  /** The column names handed to the CSV reader, in order. */
  const Columns: seq<string> := [
    "log_time", "user_name", "database_name", "process_id", "connection_from",
    "session_id", "session_line_num", "command_tag", "session_start_time",
    "virtual_transaction_id", "transaction_id", "error_severity",
    "sql_state_code", "message", "detail", "hint", "internal_query",
    "internal_query_pos", "context", "query", "query_pos", "location",
    "application_name"]

  /** Columns turned into Date objects, in the order they are visited. */
  const DateFields: seq<string> := ["session_start_time", "log_time"]
  /** Columns turned into numbers, in the order they are visited. */
  const NumericFields: seq<string> := ["process_id", "session_line_num"]

  /** The SQLSTATE that statement-duration messages are logged with. */
  const SuccessCode := "00000"
  /** The member of a JSON plan that holds the statement text. */
  const QueryTextKey := "Query Text"

  /** The fields the enrichment step may write; every other field keeps
      its value. */
  const Writable: set<string> :=
    {"log_time", "session_start_time", "process_id", "session_line_num",
     "duration", "query", "plan"}

  /** A key holds the same value (or is absent) in both records. */
  predicate Unchanged(before: Fields, after: Fields, key: string) {
    (key in before <==> key in after) && (key in before ==> before[key] == after[key])
  }

  // ----- the schema binder -----

  /** The object the CSV reader builds for one row: the names bound, in
      order, to the fields at the same positions. */
  function Bind(names: seq<string>, row: seq<string>): (f: Fields)
    requires |names| == |row|
    ensures forall k :: k in f <==> k in names
    ensures |names| > 0 ==> f[names[|names| - 1]] == Str(row[|row| - 1])
  {
    if names == [] then map[]
    else Bind(names[..|names| - 1], row[..|row| - 1])[names[|names| - 1] := Str(row[|row| - 1])]
  }

  /** With distinct names, each name holds the field at its position. */
  lemma {:induction false} BindFields(names: seq<string>, row: seq<string>)
    requires |names| == |row|
    requires forall i, j :: 0 <= i < j < |names| ==> names[i] != names[j]
    ensures forall i :: 0 <= i < |names| ==> names[i] in Bind(names, row) && Bind(names, row)[names[i]] == Str(row[i])
  {
    if names != [] {
      var n := |names| - 1;
      var prefix, fields := names[..n], row[..n];
      assert forall i, j :: 0 <= i < j < |prefix| ==> prefix[i] != prefix[j] by {
        forall i, j | 0 <= i < j < |prefix| ensures prefix[i] != prefix[j] {
          assert prefix[i] == names[i] && prefix[j] == names[j];
        }
      }
      BindFields(prefix, fields);
      var before := Bind(prefix, fields);
      assert Bind(names, row) == before[names[n] := Str(row[n])];
      forall i | 0 <= i < |names|
        ensures names[i] in Bind(names, row) && Bind(names, row)[names[i]] == Str(row[i])
      {
        if i < n {
          assert names[i] == prefix[i] && row[i] == fields[i] && names[i] != names[n];
          assert prefix[i] in before && before[prefix[i]] == Str(fields[i]);
        }
      }
    }
  }

  /** No column name is used twice, so every field of a row is kept. */
  lemma ColumnsDistinct()
    ensures forall i, j :: 0 <= i < j < |Columns| ==> Columns[i] != Columns[j]
  {
  }

  /** The record the CSV reader builds from one row of 23 fields: every
      column name is a key, no other key is present, and each name holds
      the field at its position. */
  function BindColumns(row: seq<string>): (f: Fields)
    requires |row| == |Columns|
    ensures forall k :: k in f <==> k in Columns
    ensures forall i :: 0 <= i < |Columns| ==> Columns[i] in f && f[Columns[i]] == Str(row[i])
  {
    ColumnsDistinct();
    BindFields(Columns, row);
    Bind(Columns, row)
  }

  // ----- the coercions -----

  /** The two conversions the field loops apply. */
  datatype Coercion = ToDate | ToNumber

  /** `new Date(v)` and `+v`. */
  function Convert(js: Runtime, c: Coercion, v: Value): (r: Value)
    ensures c == ToDate ==> r.Date?
    ensures c == ToNumber ==> r.Num?
  {
    match c
    case ToDate => Date(js.toDate(v))
    case ToNumber => Num(js.toNumber(v))
  }

  /** The record after `record[name] = convert(record[name])` has run for
      every name in `names`, in order; a name that is absent reads as
      undefined and is added. This is what the two field loops compute. */
  function Overwrite(f: Fields, names: seq<string>, js: Runtime, c: Coercion): (r: Fields)
    ensures f.Keys <= r.Keys
    ensures |names| > 0 ==> var n := names[|names| - 1];
              n in r && (c == ToDate ==> r[n].Date?) && (c == ToNumber ==> r[n].Num?)
  {
    if names == [] then f
    else
      var g := Overwrite(f, names[..|names| - 1], js, c);
      var n := names[|names| - 1];
      g[n := Convert(js, c, Get(g, n))]
  }

  /** After a loop the record has gained exactly the names it visited, every
      visited name holds a converted value, and every other field is as it
      was. */
  lemma {:induction false} OverwriteFields(f: Fields, names: seq<string>, js: Runtime, c: Coercion)
    ensures var r := Overwrite(f, names, js, c);
            && (forall k :: k in r <==> k in f || k in names)
            && (forall k :: k !in names ==> Unchanged(f, r, k))
            && (forall k :: k in names ==> (c == ToDate ==> r[k].Date?) && (c == ToNumber ==> r[k].Num?))
  {
    if names != [] {
      var init := names[..|names| - 1];
      var n := names[|names| - 1];
      OverwriteFields(f, init, js, c);
      assert names == init + [n];
      assert forall k :: k in names <==> k in init || k == n;
    }
  }

  /** The record after both field loops (index.js:23-29): the two date
      columns hold Date objects and the two numeric columns numbers, each
      converted from the value the field held on entry. */
  function Coerce(f: Fields, js: Runtime): (r: Fields)
    ensures r.Keys == f.Keys + {"session_start_time", "log_time", "process_id", "session_line_num"}
    ensures r["session_start_time"].Date? && r["log_time"].Date?
    ensures r["process_id"].Num? && r["session_line_num"].Num?
  {
    f["session_start_time" := Date(js.toDate(Get(f, "session_start_time")))]
     ["log_time" := Date(js.toDate(Get(f, "log_time")))]
     ["process_id" := Num(js.toNumber(Get(f, "process_id")))]
     ["session_line_num" := Num(js.toNumber(Get(f, "session_line_num")))]
  }

  /** A loop over two names converts the first, then the second. */
  lemma OverwriteTwo(f: Fields, a: string, b: string, js: Runtime, c: Coercion)
    ensures var g := f[a := Convert(js, c, Get(f, a))];
            Overwrite(f, [a, b], js, c) == g[b := Convert(js, c, Get(g, b))]
  {
    assert [a, b][..1] == [a] && [a][..0] == [];
    assert Overwrite(f, [a], js, c) == f[a := Convert(js, c, Get(f, a))];
  }

  /** Running the loops over the two field lists converts each column once,
      from its original value: the lists name four distinct columns. */
  lemma LoopsCoerce(f: Fields, js: Runtime)
    ensures Overwrite(Overwrite(f, DateFields, js, ToDate), NumericFields, js, ToNumber) == Coerce(f, js)
  {
    var started := f["session_start_time" := Date(js.toDate(Get(f, "session_start_time")))];
    var dated := started["log_time" := Date(js.toDate(Get(f, "log_time")))];
    OverwriteTwo(f, "session_start_time", "log_time", js, ToDate);
    assert Get(started, "log_time") == Get(f, "log_time");
    assert Overwrite(f, DateFields, js, ToDate) == dated;
    var numbered := dated["process_id" := Num(js.toNumber(Get(f, "process_id")))];
    OverwriteTwo(dated, "process_id", "session_line_num", js, ToNumber);
    assert Get(dated, "process_id") == Get(f, "process_id");
    assert Get(numbered, "session_line_num") == Get(f, "session_line_num");
  }

  /** The coercions leave every other field as it was. */
  lemma CoerceKeeps(f: Fields, js: Runtime, extra: Fields, k: string)
    requires k !in DateFields && k !in NumericFields && k !in extra
    ensures Unchanged(f, Coerce(f, js) + extra, k)
  {
  }

  // ----- the enrichment -----

  /** What became of the record: pushed to the readable side, or left
      mutated when `record.message.match` threw because the message was not
      a string. */
  datatype Outcome = Pushed(fields: Fields) | Threw(fields: Fields)

  /** The exact value of the captured duration (`+match[1]`): the captured
      digits without the point, divided by ten for every digit after it. */
  function DurationValue(d: DurationMatch): (v: Value)
    requires All(d.whole, Digit) && All(d.frac, Digit)
    ensures v.Num? && v.n.Finite? && v.n.value >= 0.0
    ensures All(d.whole + d.frac, Digit)
            && v.n.value == DigitsValue(d.whole + d.frac) as real / Pow10(|d.frac|) as real
  {
    DecimalValueScaled(d.whole, d.frac);
    Num(Finite(DecimalValue(d.whole, d.frac)))
  }

  /** The fields the payload after `plan:` sets (index.js:36-49), tried in
      order: the `Query Text:` format sets `query`; otherwise a payload that
      parses as JSON sets `plan` and then `query` to the plan's `Query Text`
      member, unless reading that member throws (a `null` plan), which is
      caught and leaves `query` alone; a payload that does not parse sets
      nothing. */
  function PayloadFields(rest: string, js: Runtime): (r: Fields)
    ensures r.Keys <= {"query", "plan"}
  {
    match MatchQueryText(rest)
    case Some(q) => map["query" := Str(q)]
    case None =>
      match js.parseJson(rest)
      case None => map[]
      case Some(plan) =>
        match GetProperty(plan, QueryTextKey)
        case None => map["plan" := plan]
        case Some(q) => map["plan" := plan, "query" := q]
  }

  /** The fields a message sets inside the gate (index.js:33-50): nothing
      when it is not a duration message, otherwise `duration` and the
      payload's fields. */
  function Derived(msg: string, js: Runtime): (r: Fields)
    ensures r.Keys <= {"duration", "query", "plan"}
  {
    match MatchDuration(msg)
    case None => map[]
    case Some(d) => PayloadFields(d.rest, js)["duration" := DurationValue(d)]
  }

  /** The duration-message gate is open for these fields. */
  function GateOpen(f: Fields): (open: bool)
    ensures open <==> "sql_state_code" in f && f["sql_state_code"] == Str(SuccessCode)
  {
    Get(f, "sql_state_code") == Str(SuccessCode)
  }

  /** `_transform` on one record (index.js:22-55), as a function of the
      fields it receives. The gate and the message are read from the record
      as received: the coercions never write those two keys. */
  function Enrich(f: Fields, js: Runtime): (r: Outcome)
    ensures r.fields == Coerce(f, js) + DerivedOf(f, js)
    ensures r.Threw? <==> GateOpen(f) && !Get(f, "message").Str?
  {
    assert Coerce(f, js) + map[] == Coerce(f, js);
    var c := Coerce(f, js);
    if !GateOpen(f) then Pushed(c)
    else if !Get(f, "message").Str? then Threw(c)
    else
      DerivedOfMessage(f, js, Get(f, "message").s);
      Pushed(c + Derived(Get(f, "message").s, js))
  }

  /** The captures of the duration pattern, when the gate is open and the
      message is a string that matches. */
  function DurationMessage(f: Fields): (r: Option<DurationMatch>)
    ensures r.Some? ==> GateOpen(f) && Get(f, "message").Str?
  {
    if GateOpen(f) && Get(f, "message").Str? then MatchDuration(Get(f, "message").s) else None
  }

  /** The fields derived from the message, for whichever path the record
      takes. */
  function DerivedOf(f: Fields, js: Runtime): (r: Fields)
    ensures r.Keys <= {"duration", "query", "plan"}
  {
    match DurationMessage(f)
    case None => map[]
    case Some(d) => PayloadFields(d.rest, js)["duration" := DurationValue(d)]
  }

  /** Inside the gate the derived fields are those of the message. */
  lemma DerivedOfMessage(f: Fields, js: Runtime, msg: string)
    requires GateOpen(f) && Get(f, "message") == Str(msg)
    ensures DerivedOf(f, js) == Derived(msg, js)
  {
  }

  /** A duration message derives `duration` and the payload's fields. */
  lemma DerivedOfMatch(msg: string, js: Runtime, d: DurationMatch)
    requires MatchDuration(msg) == Some(d)
    ensures Derived(msg, js) == PayloadFields(d.rest, js)["duration" := DurationValue(d)]
  {
  }

  /** The payload cases, one at a time. */
  lemma PayloadQueryText(rest: string, js: Runtime, q: string)
    requires MatchQueryText(rest) == Some(q)
    ensures PayloadFields(rest, js) == map["query" := Str(q)]
  {
  }

  lemma PayloadUnparsed(rest: string, js: Runtime)
    requires MatchQueryText(rest).None? && js.parseJson(rest).None?
    ensures PayloadFields(rest, js) == map[]
  {
  }

  lemma PayloadPlan(rest: string, js: Runtime, plan: Value)
    requires MatchQueryText(rest).None? && js.parseJson(rest) == Some(plan)
    ensures GetProperty(plan, QueryTextKey).None? ==> PayloadFields(rest, js) == map["plan" := plan]
    ensures GetProperty(plan, QueryTextKey).Some? ==>
              PayloadFields(rest, js) == map["plan" := plan, "query" := GetProperty(plan, QueryTextKey).value]
  {
  }

  /** The derived fields of a duration message, for each payload format. */
  lemma DerivedOfQueryText(f: Fields, js: Runtime, d: DurationMatch, q: string)
    requires DurationMessage(f) == Some(d)
    requires MatchQueryText(d.rest) == Some(q)
    ensures DerivedOf(f, js) == map["query" := Str(q)]["duration" := DurationValue(d)]
  {
    var msg := Get(f, "message").s;
    DerivedOfMessage(f, js, msg);
    DerivedOfMatch(msg, js, d);
    PayloadQueryText(d.rest, js, q);
  }

  lemma DerivedOfUnparsed(f: Fields, js: Runtime, d: DurationMatch)
    requires DurationMessage(f) == Some(d)
    requires MatchQueryText(d.rest).None? && js.parseJson(d.rest).None?
    ensures DerivedOf(f, js) == map[]["duration" := DurationValue(d)]
  {
    var msg := Get(f, "message").s;
    DerivedOfMessage(f, js, msg);
    DerivedOfMatch(msg, js, d);
    PayloadUnparsed(d.rest, js);
  }

  lemma DerivedOfPlan(f: Fields, js: Runtime, d: DurationMatch, plan: Value)
    requires DurationMessage(f) == Some(d)
    requires MatchQueryText(d.rest).None? && js.parseJson(d.rest) == Some(plan)
    ensures GetProperty(plan, QueryTextKey).None? ==>
              DerivedOf(f, js) == map["plan" := plan]["duration" := DurationValue(d)]
    ensures GetProperty(plan, QueryTextKey).Some? ==>
              DerivedOf(f, js)
              == map["plan" := plan, "query" := GetProperty(plan, QueryTextKey).value]["duration" := DurationValue(d)]
  {
    var msg := Get(f, "message").s;
    DerivedOfMessage(f, js, msg);
    DerivedOfMatch(msg, js, d);
    PayloadPlan(d.rest, js, plan);
  }

  /** The record after each payload format, read off the overlay. */
  lemma QueryTextFields(f: Fields, js: Runtime, r: Fields, v: Value, q: string)
    requires r == Coerce(f, js) + map["query" := Str(q)]["duration" := v]
    ensures "duration" in r && r["duration"] == v
    ensures "query" in r && r["query"] == Str(q)
    ensures Unchanged(f, r, "plan")
  {
    CoerceKeeps(f, js, map["query" := Str(q)]["duration" := v], "plan");
  }

  lemma UnparsedFields(f: Fields, js: Runtime, r: Fields, v: Value)
    requires r == Coerce(f, js) + map[]["duration" := v]
    ensures "duration" in r && r["duration"] == v
    ensures Unchanged(f, r, "plan") && Unchanged(f, r, "query") && Unchanged(f, r, "message")
  {
    var derived := map[]["duration" := v];
    CoerceKeeps(f, js, derived, "plan");
    CoerceKeeps(f, js, derived, "query");
    CoerceKeeps(f, js, derived, "message");
  }

  lemma PlanFields(f: Fields, js: Runtime, r: Fields, v: Value, plan: Value)
    requires r == Coerce(f, js) + map["plan" := plan]["duration" := v]
    ensures "duration" in r && r["duration"] == v
    ensures "plan" in r && r["plan"] == plan
    ensures Unchanged(f, r, "query")
  {
    CoerceKeeps(f, js, map["plan" := plan]["duration" := v], "query");
  }

  lemma PlanQueryFields(f: Fields, js: Runtime, r: Fields, v: Value, plan: Value, q: Value)
    requires r == Coerce(f, js) + map["plan" := plan, "query" := q]["duration" := v]
    ensures "duration" in r && r["duration"] == v
    ensures "plan" in r && r["plan"] == plan
    ensures "query" in r && r["query"] == q
  {
  }

  /** The derived fields never overwrite a coerced column. */
  lemma OverlayCoerced(f: Fields, js: Runtime, extra: Fields)
    requires extra.Keys <= {"duration", "query", "plan"}
    ensures var r := Coerce(f, js) + extra;
            && "log_time" in r && r["log_time"] == Date(js.toDate(Get(f, "log_time")))
            && "session_start_time" in r
            && r["session_start_time"] == Date(js.toDate(Get(f, "session_start_time")))
            && "process_id" in r && r["process_id"] == Num(js.toNumber(Get(f, "process_id")))
            && "session_line_num" in r && r["session_line_num"] == Num(js.toNumber(Get(f, "session_line_num")))
  {
  }

  // ----- properties of the enrichment -----

  /** Outside the gate (`sql_state_code` is not exactly "00000") nothing but
      the four coerced columns changes: no duration, query or plan is
      written, and the message is untouched. */
  lemma GateClosedAddsNothing(f: Fields, js: Runtime)
    requires !GateOpen(f)
    ensures Enrich(f, js).Pushed?
    ensures forall k :: k !in DateFields && k !in NumericFields ==> Unchanged(f, Enrich(f, js).fields, k)
  {
    forall k | k !in DateFields && k !in NumericFields
      ensures Unchanged(f, Enrich(f, js).fields, k)
    {
      CoerceKeeps(f, js, map[], k);
    }
  }

  /** Inside the gate, with a string message: the record is pushed, and
      `duration` is written exactly when the message matches the duration
      pattern, with the value of the captured decimal; when it does not
      match, nothing but the coerced columns changes. */
  lemma DurationSetIffMatch(f: Fields, js: Runtime, msg: string)
    requires GateOpen(f) && Get(f, "message") == Str(msg)
    ensures Enrich(f, js).Pushed?
    ensures MatchDuration(msg).Some? ==>
              "duration" in Enrich(f, js).fields
              && Enrich(f, js).fields["duration"] == DurationValue(MatchDuration(msg).value)
    ensures MatchDuration(msg).None? ==>
              forall k :: k !in DateFields && k !in NumericFields ==> Unchanged(f, Enrich(f, js).fields, k)
    ensures "duration" !in f ==> ("duration" in Enrich(f, js).fields <==> MatchDuration(msg).Some?)
  {
    DerivedOfMessage(f, js, msg);
    var derived := Derived(msg, js);
    match MatchDuration(msg)
    case None =>
      assert derived == map[];
      forall k | k !in DateFields && k !in NumericFields
        ensures Unchanged(f, Coerce(f, js) + derived, k)
      {
        CoerceKeeps(f, js, derived, k);
      }
    case Some(d) =>
      DerivedOfMatch(msg, js, d);
      assert "duration" in derived && derived["duration"] == DurationValue(d);
  }

  /** The `Query Text:` format takes priority: when the captured remainder
      starts with the label, `query` becomes the text after it with its
      leading whitespace stripped, and `plan` is not written. */
  lemma QueryTextTakesPriority(f: Fields, js: Runtime, d: DurationMatch, q: string)
    requires DurationMessage(f) == Some(d)
    requires MatchQueryText(d.rest) == Some(q)
    ensures Enrich(f, js).Pushed?
    ensures Enrich(f, js).fields["duration"] == DurationValue(d)
    ensures Enrich(f, js).fields["query"] == Str(q)
    ensures q == TrimStart(d.rest[|QueryTextLabel|..])
    ensures Unchanged(f, Enrich(f, js).fields, "plan")
  {
    DerivedOfQueryText(f, js, d, q);
    QueryTextFields(f, js, Enrich(f, js).fields, DurationValue(d), q);
  }

  /** `plan` is written only by the JSON format: the gate was open, the
      message matched, the remainder did not start with `Query Text:` and
      parsed as JSON, and `plan` is the parsed value. So the two payload
      formats never both apply. */
  lemma PlanOnlyFromJson(f: Fields, js: Runtime)
    requires !Unchanged(f, Enrich(f, js).fields, "plan")
    ensures DurationMessage(f).Some?
    ensures MatchQueryText(DurationMessage(f).value.rest).None?
    ensures js.parseJson(DurationMessage(f).value.rest).Some?
    ensures Enrich(f, js).fields["plan"] == js.parseJson(DurationMessage(f).value.rest).value
  {
    var derived := DerivedOf(f, js);
    if "plan" !in derived {
      CoerceKeeps(f, js, derived, "plan");
    }
    var d := DurationMessage(f).value;
    assert derived == PayloadFields(d.rest, js)["duration" := DurationValue(d)];
    PlanFromPayload(d.rest, js);
    assert Enrich(f, js).fields["plan"] == derived["plan"];
  }

  /** Only a JSON payload writes `plan`, and then with the parsed value. */
  lemma PlanFromPayload(rest: string, js: Runtime)
    requires "plan" in PayloadFields(rest, js)
    ensures MatchQueryText(rest).None? && js.parseJson(rest).Some?
    ensures PayloadFields(rest, js)["plan"] == js.parseJson(rest).value
  {
  }

  /** A remainder that is neither query text nor JSON is absorbed: the
      record is still pushed, `duration` stays written, and `plan`, `query`
      (the CSV column) and `message` keep the values they had. */
  lemma ParseFailureAbsorbed(f: Fields, js: Runtime, d: DurationMatch)
    requires DurationMessage(f) == Some(d)
    requires MatchQueryText(d.rest).None? && js.parseJson(d.rest).None?
    ensures Enrich(f, js).Pushed?
    ensures Enrich(f, js).fields["duration"] == DurationValue(d)
    ensures Unchanged(f, Enrich(f, js).fields, "plan")
    ensures Unchanged(f, Enrich(f, js).fields, "query")
    ensures Unchanged(f, Enrich(f, js).fields, "message")
  {
    DerivedOfUnparsed(f, js, d);
    UnparsedFields(f, js, Enrich(f, js).fields, DurationValue(d));
  }

  /** A remainder that parses as JSON becomes `plan`. `query` then becomes
      the plan's `Query Text` member, undefined when the member is missing
      or the value is not an object; for a `null` plan the lookup throws,
      the exception is swallowed and `query` keeps its value. */
  lemma ParsedPlanSetsQuery(f: Fields, js: Runtime, d: DurationMatch, plan: Value)
    requires DurationMessage(f) == Some(d)
    requires MatchQueryText(d.rest).None? && js.parseJson(d.rest) == Some(plan)
    ensures Enrich(f, js).Pushed?
    ensures Enrich(f, js).fields["duration"] == DurationValue(d)
    ensures Enrich(f, js).fields["plan"] == plan
    ensures plan.Obj? ==> Enrich(f, js).fields["query"] == Get(plan.props, QueryTextKey)
    ensures plan.Obj? && QueryTextKey !in plan.props ==> Enrich(f, js).fields["query"] == Undefined
    ensures plan.Null? || plan.Undefined? ==> Unchanged(f, Enrich(f, js).fields, "query")
    ensures !plan.Obj? && !plan.Null? && !plan.Undefined? ==> Enrich(f, js).fields["query"] == Undefined
  {
    DerivedOfPlan(f, js, d, plan);
    if plan.Null? || plan.Undefined? {
      PlanFields(f, js, Enrich(f, js).fields, DurationValue(d), plan);
    } else {
      var q := GetProperty(plan, QueryTextKey).value;
      PlanQueryFields(f, js, Enrich(f, js).fields, DurationValue(d), plan, q);
    }
  }

  /** Whatever the message, only the writable fields can change: every other
      field keeps its value, and no key outside them is added. */
  lemma OnlyWritableFieldsChange(f: Fields, js: Runtime)
    ensures Enrich(f, js).fields.Keys <= f.Keys + Writable
    ensures forall k :: k !in Writable ==> Unchanged(f, Enrich(f, js).fields, k)
  {
    var derived := DerivedOf(f, js);
    forall k | k !in Writable
      ensures Unchanged(f, Coerce(f, js) + derived, k)
    {
      CoerceKeeps(f, js, derived, k);
    }
  }

  /** The coercions always run and never abort the record: it is pushed
      unless the gate is open and the message is not a string, and either
      way the two date columns hold Date objects and the two numeric columns
      numbers converted from the values received. */
  lemma CoercedColumnsTyped(f: Fields, js: Runtime)
    ensures Enrich(f, js).Threw? <==> GateOpen(f) && !Get(f, "message").Str?
    ensures var r := Enrich(f, js).fields;
            && "log_time" in r && r["log_time"] == Date(js.toDate(Get(f, "log_time")))
            && "session_start_time" in r
            && r["session_start_time"] == Date(js.toDate(Get(f, "session_start_time")))
            && "process_id" in r && r["process_id"] == Num(js.toNumber(Get(f, "process_id")))
            && "session_line_num" in r
            && r["session_line_num"] == Num(js.toNumber(Get(f, "session_line_num")))
  {
    OverlayCoerced(f, js, DerivedOf(f, js));
  }

  /** A record that keeps every non-writable field of a bound row keeps the
      row's field in each such column. */
  lemma RowColumnsKept(row: seq<string>, f: Fields, g: Fields)
    requires |row| == |Columns|
    requires forall i :: 0 <= i < |Columns| ==> Columns[i] in f && f[Columns[i]] == Str(row[i])
    requires forall k :: k !in Writable ==> Unchanged(f, g, k)
    ensures forall i :: 0 <= i < |Columns| && Columns[i] !in Writable ==> Columns[i] in g && g[Columns[i]] == Str(row[i])
  {
    forall i | 0 <= i < |Columns| && Columns[i] !in Writable
      ensures Columns[i] in g && g[Columns[i]] == Str(row[i])
    {
      var k := Columns[i];
      assert k in f && f[k] == Str(row[i]);
      assert Unchanged(f, g, k);
    }
  }

  /** The CSV reader always supplies a string message. */
  lemma RowMessageIsString(row: seq<string>)
    requires |row| == |Columns|
    ensures Get(BindColumns(row), "message") == Str(row[13])
  {
    assert Columns[13] == "message";
  }

  /** A record built from a CSV row is always pushed, and every column
      outside the writable fields carries its CSV text unchanged. */
  lemma CsvRowPassesThrough(row: seq<string>, js: Runtime)
    requires |row| == |Columns|
    ensures var r := Enrich(BindColumns(row), js);
            && r.Pushed?
            && forall i :: 0 <= i < |Columns| && Columns[i] !in Writable ==> Columns[i] in r.fields && r.fields[Columns[i]] == Str(row[i])
  {
    var f := BindColumns(row);
    RowMessageIsString(row);
    var g := Enrich(f, js).fields;
    assert forall i :: 0 <= i < |Columns| && Columns[i] !in Writable ==> Columns[i] in g && g[Columns[i]] == Str(row[i]) by {
      OnlyWritableFieldsChange(f, js);
      RowColumnsKept(row, f, g);
    }
  }
}
