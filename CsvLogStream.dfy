/**
  The object-mode transform stream of index.js: `PostgresCSVLog._transform`
  rewrites each record it receives in place and pushes it to the readable
  side. The record is a `Record` object whose fields the method reassigns
  step by step, as the JavaScript does; the method is proved to leave the
  record as `CsvLog.Enrich` describes and to push exactly the records that
  did not throw.
 */
module CsvLogStream {
  import opened Wrappers
  import opened JsValues
  import opened Patterns
  import opened CsvLog

  /** One record of the object stream: a JavaScript object keyed by column
      name, shared between the writer and the reader. */
  class Record {
    var fields: Fields

    constructor(fields: Fields)
      ensures this.fields == fields
    {
      this.fields := fields;
    }
  }

  // ----- the assignment sequences of `_transform`, one per path -----

  /** The coercions never touch the two fields the gate reads. */
  lemma CoerceReadsGate(f: Fields, js: Runtime)
    ensures Get(Coerce(f, js), "sql_state_code") == Get(f, "sql_state_code")
    ensures Get(Coerce(f, js), "message") == Get(f, "message")
  {
    assert Coerce(f, js) + map[] == Coerce(f, js);
    CoerceKeeps(f, js, map[], "sql_state_code");
    CoerceKeeps(f, js, map[], "message");
  }

  /** Assigning `duration` and then the payload's fields one by one gives
      the coerced record overlaid with the derived fields. */
  lemma AssignDuration(c: Fields, v: Value)
    ensures c + map[]["duration" := v] == c["duration" := v]
  {
  }

  lemma AssignQueryText(c: Fields, v: Value, q: Value)
    ensures c + map["query" := q]["duration" := v] == c["duration" := v]["query" := q]
  {
  }

  lemma AssignPlan(c: Fields, v: Value, plan: Value)
    ensures c + map["plan" := plan]["duration" := v] == c["duration" := v]["plan" := plan]
  {
  }

  lemma AssignPlanQuery(c: Fields, v: Value, plan: Value, q: Value)
    ensures c + map["plan" := plan, "query" := q]["duration" := v]
            == c["duration" := v]["plan" := plan]["query" := q]
  {
  }

  /** A string message that is not a duration message leaves the coerced
      record as it is. */
  lemma EnrichNoDuration(f: Fields, js: Runtime, msg: string)
    requires GateOpen(f) && Get(f, "message") == Str(msg)
    requires MatchDuration(msg).None?
    ensures Enrich(f, js) == Pushed(Coerce(f, js))
  {
    DerivedOfMessage(f, js, msg);
    assert Coerce(f, js) + map[] == Coerce(f, js);
  }

  lemma EnrichQueryTextSteps(f: Fields, js: Runtime, d: DurationMatch, q: string)
    requires DurationMessage(f) == Some(d)
    requires MatchQueryText(d.rest) == Some(q)
    ensures Enrich(f, js) == Pushed(Coerce(f, js)["duration" := DurationValue(d)]["query" := Str(q)])
  {
    DerivedOfQueryText(f, js, d, q);
    AssignQueryText(Coerce(f, js), DurationValue(d), Str(q));
  }

  lemma EnrichUnparsedSteps(f: Fields, js: Runtime, d: DurationMatch)
    requires DurationMessage(f) == Some(d)
    requires MatchQueryText(d.rest).None? && js.parseJson(d.rest).None?
    ensures Enrich(f, js) == Pushed(Coerce(f, js)["duration" := DurationValue(d)])
  {
    DerivedOfUnparsed(f, js, d);
    AssignDuration(Coerce(f, js), DurationValue(d));
  }

  lemma EnrichPlanSteps(f: Fields, js: Runtime, d: DurationMatch, plan: Value)
    requires DurationMessage(f) == Some(d)
    requires MatchQueryText(d.rest).None? && js.parseJson(d.rest) == Some(plan)
    ensures GetProperty(plan, QueryTextKey).None? ==>
              Enrich(f, js) == Pushed(Coerce(f, js)["duration" := DurationValue(d)]["plan" := plan])
    ensures GetProperty(plan, QueryTextKey).Some? ==>
              Enrich(f, js)
              == Pushed(Coerce(f, js)["duration" := DurationValue(d)]["plan" := plan]
                                     ["query" := GetProperty(plan, QueryTextKey).value])
  {
    DerivedOfPlan(f, js, d, plan);
    if GetProperty(plan, QueryTextKey).None? {
      AssignPlan(Coerce(f, js), DurationValue(d), plan);
    } else {
      AssignPlanQuery(Coerce(f, js), DurationValue(d), plan, GetProperty(plan, QueryTextKey).value);
    }
  }

  // ----- the stream -----

  /** The transform stream; `output` is what it has pushed to its readable
      side, in order. */
  class PostgresCSVLog {
    var output: seq<Record>

    constructor()
      ensures output == []
    {
      output := [];
    }

    /** `_transform(record, encoding, callback)`: coerce the date and numeric
        columns, enrich a duration message, and push the record. When the
        gate is open and the message is not a string, `record.message.match`
        throws: the record stays as far as it was rewritten and is not
        pushed. */
    method Transform(record: Record, js: Runtime) returns (threw: bool)
      modifies this, record
      ensures record.fields == Enrich(old(record.fields), js).fields
      ensures threw <==> Enrich(old(record.fields), js).Threw?
      ensures output == if threw then old(output) else old(output) + [record]
    {
      ghost var received := record.fields;

      for i := 0 to |DateFields|
        invariant record.fields == Overwrite(received, DateFields[..i], js, ToDate)
        invariant output == old(output)
      {
        var name := DateFields[i];
        assert DateFields[..i + 1][..i] == DateFields[..i];
        record.fields := record.fields[name := Date(js.toDate(Get(record.fields, name)))];
      }
      assert DateFields[..|DateFields|] == DateFields;
      ghost var dated := record.fields;

      for i := 0 to |NumericFields|
        invariant record.fields == Overwrite(dated, NumericFields[..i], js, ToNumber)
        invariant output == old(output)
      {
        var name := NumericFields[i];
        assert NumericFields[..i + 1][..i] == NumericFields[..i];
        record.fields := record.fields[name := Num(js.toNumber(Get(record.fields, name)))];
      }
      assert NumericFields[..|NumericFields|] == NumericFields;
      LoopsCoerce(received, js);
      CoerceReadsGate(received, js);

      threw := false;
      if Get(record.fields, "sql_state_code") == Str(SuccessCode) {
        var message := Get(record.fields, "message");
        if !message.Str? {
          threw := true;
          return;
        }
        match MatchDuration(message.s)
        case None =>
          EnrichNoDuration(received, js, message.s);
        case Some(d) =>
          record.fields := record.fields["duration" := DurationValue(d)];
          match MatchQueryText(d.rest)
          case Some(q) =>
            record.fields := record.fields["query" := Str(q)];
            EnrichQueryTextSteps(received, js, d, q);
          case None =>
            match js.parseJson(d.rest)
            case None =>
              EnrichUnparsedSteps(received, js, d);
            case Some(plan) =>
              record.fields := record.fields["plan" := plan];
              EnrichPlanSteps(received, js, d, plan);
              match GetProperty(record.fields["plan"], QueryTextKey)
              case None =>
              case Some(q) =>
                record.fields := record.fields["query" := q];
      }
      output := output + [record];
    }
  }
}
