/** `utils/emqx_dynamic_queue_creator.py`: translates the device catalogue
    into EMQX InfluxDB actions and rules. Each characteristic with a
    `structParser`, and each Movesense whiteboard measure with a JSON parser,
    yields an action (an InfluxDB line-protocol write template) followed by
    a rule (an SQL query routing its MQTT topic to that action). The POSTs
    are modelled as the sequence of request payloads they would send. */
module EmqxQueueCreator {
  import opened Wrappers
  import opened Text

  // ---------------------------------------------------------------------------
  // The catalogue, as `yaml.safe_load` returns it

  /** A parser field; each key may be missing. */
  datatype FieldSpec = FieldSpec(name: Option<string>, path: Option<string>, fieldType: Option<string>)

  /** A characteristic; `structParser` is present or not, and its `fields`
      default to the empty list. */
  datatype Characteristic = Characteristic(name: Option<string>, mqttTopic: Option<string>, structParser: Option<seq<FieldSpec>>)

  datatype Service = Service(characteristics: seq<Characteristic>)

  datatype ArrayParser = ArrayParser(arrayPath: Option<string>, fields: seq<FieldSpec>)

  /** A whiteboard measure, with either, both or none of the two JSON parsers. */
  datatype Measure = Measure(
    name: Option<string>, mqttTopic: Option<string>,
    jsonPayloadParser: Option<seq<FieldSpec>>, jsonArrayParser: Option<ArrayParser>)

  /** A device; `whiteboard` is present iff the `movesense_whiteboard` key is,
      and then holds its `measures` (empty when missing). */
  datatype Device = Device(shortName: Option<string>, services: seq<Service>, whiteboard: Option<seq<Measure>>)

  /** `config['devices']`, in insertion order. */
  type Catalog = seq<(string, Device)>

  // ---------------------------------------------------------------------------
  // The requests

  const CONNECTOR := "Influx1"
  const PRECISION := "ms"
  const HEALTH_CHECK_INTERVAL := "30s"
  const ACTION_TYPE := "influxdb"

  /** The payload `create_emqx_action` POSTs to `/api/v5/actions`. */
  datatype ActionPayload = ActionPayload(
    connector: string, description: string, enable: bool, name: string,
    precision: string, writeSyntax: string, healthCheckInterval: string, actionType: string)

  /** The payload `create_emqx_rule` POSTs to `/api/v5/rules` (its
      `metadata` is always the empty object). */
  datatype RulePayload = RulePayload(sql: string, actions: seq<string>, description: string, enable: bool, id: string, name: string)

  datatype Request = CreateAction(action: ActionPayload) | CreateRule(rule: RulePayload)

  function ActionRequest(actionName: string, description: string, writeSyntax: string): (r: Request)
    ensures r.CreateAction? && r.action.name == actionName && r.action.writeSyntax == writeSyntax
  {
    CreateAction(ActionPayload(CONNECTOR, description, true, actionName, PRECISION, writeSyntax, HEALTH_CHECK_INTERVAL, ACTION_TYPE))
  }

  /** A rule always routes to exactly the one InfluxDB action it names. */
  function RuleRequest(ruleId: string, ruleName: string, description: string, sql: string, actionName: string): (r: Request)
    ensures r.CreateRule? && r.rule.actions == ["influxdb:" + actionName]
    ensures r.rule.id == ruleId && r.rule.name == ruleName && r.rule.sql == sql
  {
    CreateRule(RulePayload(sql, ["influxdb:" + actionName], description, true, ruleId, ruleName))
  }

  // ---------------------------------------------------------------------------
  // Names

  /** The characters `[^a-z0-9]` does not match. */
  predicate IsNameChar(c: char) {
    'a' <= c <= 'z' || '0' <= c <= '9'
  }

  /** `re.sub(r'[^a-z0-9]', '', s)`. */
  function Clean(s: string): (r: string)
    ensures |r| <= |s|
    ensures forall i :: 0 <= i < |r| ==> IsNameChar(r[i])
  {
    if s == [] then [] else (if IsNameChar(s[0]) then [s[0]] else []) + Clean(s[1..])
  }

  /** The cleaned entry name: `re.sub(r'[^a-z0-9]', '', x.get('name', '').lower())`. */
  function CleanedName(name: Option<string>): string {
    Clean(Lower(name.GetOr("")))
  }

  /** Cleaning keeps exactly the name characters. */
  lemma {:induction false} CleanMembers(s: string)
    ensures forall c :: c in Clean(s) <==> c in s && IsNameChar(c)
  {
    if s != [] {
      CleanMembers(s[1..]);
      assert s == [s[0]] + s[1..];
    }
  }

  /** Cleaning works character by character, keeping their order. */
  lemma {:induction false} CleanAppend(a: string, b: string)
    ensures Clean(a + b) == Clean(a) + Clean(b)
  {
    if a != [] {
      assert (a + b)[0] == a[0];
      assert (a + b)[1..] == a[1..] + b;
      CleanAppend(a[1..], b);
    } else {
      assert a + b == b;
    }
  }

  /** A name made only of `[a-z0-9]` is left as it is, so cleaning twice
      is cleaning once. */
  lemma {:induction false} CleanFixes(s: string)
    requires forall i :: 0 <= i < |s| ==> IsNameChar(s[i])
    ensures Clean(s) == s
  {
    if s != [] {
      CleanFixes(s[1..]);
    }
  }

  lemma CleanIdempotent(s: string)
    ensures Clean(Clean(s)) == Clean(s)
  {
    CleanFixes(Clean(s));
  }

  /** The measurement name `f"{device_short_name}_{cleaned}"`. */
  function MeasureName(shortLower: string, cleaned: string): (r: string)
    ensures |r| == |shortLower| + 1 + |cleaned|
    ensures r[..|shortLower|] == shortLower && r[|shortLower|] == '_' && r[|shortLower| + 1..] == cleaned
  {
    shortLower + "_" + cleaned
  }

  function ActionName(m: string): string { "action_" + m }
  function RuleName(m: string): string { "rule_" + m }
  function RuleId(m: string): string { "rule_id_" + m }

  /** Python's `f"{x}"` of a value that may be `None`. */
  function PyStr(x: Option<string>): string {
    if x.Some? then x.value else "None"
  }

  /** Python truthiness of `x.get('mqttTopic')`. */
  predicate Present(x: Option<string>) {
    x.Some? && x.value != ""
  }

  /** The skip rule: `not all([device_short_name, cleaned, mqtt_topic])`. */
  predicate Skipped(shortLower: string, name: Option<string>, mqttTopic: Option<string>) {
    shortLower == "" || CleanedName(name) == "" || !Present(mqttTopic)
  }

  // ---------------------------------------------------------------------------
  // Write syntax and SQL

  const PAYLOAD_TAGS := ",deviceName=${payload.deviceName},gatewayName=${payload.gatewayName} "
  const ARRAY_TAGS := ",deviceName=${deviceName},gatewayName=${gatewayName} "
  const ARRAY_ALIAS := "sample_item"
  const ARRAY_ALIASES := ["payload.deviceName as deviceName", "payload.gatewayName as gatewayName"]

  /** The InfluxDB line-protocol template: measurement, tags, fields. */
  function WriteSyntax(m: string, tags: string, parts: seq<string>): string {
    m + tags + Join(",", parts)
  }

  function SelectAll(topic: string): string {
    "SELECT * FROM \"" + topic + "\""
  }

  /** `field['name']` succeeds for every field. */
  predicate Named(fields: seq<FieldSpec>) {
    forall k :: 0 <= k < |fields| ==> fields[k].name.Some?
  }

  /** `field['name']` and `field['path']` succeed for every field. */
  predicate NamedWithPath(fields: seq<FieldSpec>) {
    forall k :: 0 <= k < |fields| ==> fields[k].name.Some? && fields[k].path.Some?
  }

  function OptList(x: Option<string>): seq<string> {
    if x.Some? then [x.value] else []
  }

  /** The structParser field list: every field, in order, an integer. */
  function StructParts(fields: seq<FieldSpec>): (r: seq<string>)
    requires Named(fields)
    ensures |r| == |fields|
    ensures forall k :: 0 <= k < |fields| ==>
      r[k] == fields[k].name.value + "=${payload." + fields[k].name.value + "}i" && r[k][|r[k]| - 1] == 'i'
  {
    seq(|fields|, k requires 0 <= k < |fields| => fields[k].name.value + "=${payload." + fields[k].name.value + "}i")
  }

  /** A jsonPayloadParser field: `float` by default; `integer` carries the
      `i` suffix; any other type is left out. */
  function PayloadPart(f: FieldSpec): (r: Option<string>)
    requires f.name.Some? && f.path.Some?
    ensures r.Some? <==> f.fieldType.GetOr("float") in {"integer", "float"}
    ensures f.fieldType.None? ==> r == Some(f.name.value + "=${payload." + f.path.value + "}")
    ensures f.fieldType.GetOr("float") == "integer" ==> r == Some(f.name.value + "=${payload." + f.path.value + "}i")
    ensures f.fieldType.GetOr("float") == "float" ==> r == Some(f.name.value + "=${payload." + f.path.value + "}")
  {
    var fieldType := f.fieldType.GetOr("float");
    if fieldType == "integer" then Some(f.name.value + "=${payload." + f.path.value + "}i")
    else if fieldType == "float" then Some(f.name.value + "=${payload." + f.path.value + "}")
    else None
  }

  function PayloadParts(fields: seq<FieldSpec>): (r: seq<string>)
    requires NamedWithPath(fields)
    ensures |r| <= |fields|
  {
    if fields == [] then []
    else PayloadParts(fields[..|fields| - 1]) + OptList(PayloadPart(fields[|fields| - 1]))
  }

  /** The field list is built field by field, in order: each field adds its
      own part or nothing. */
  lemma {:induction false} PayloadPartsAppend(a: seq<FieldSpec>, b: seq<FieldSpec>)
    requires NamedWithPath(a) && NamedWithPath(b)
    ensures NamedWithPath(a + b)
    ensures PayloadParts(a + b) == PayloadParts(a) + PayloadParts(b)
  {
    assert forall k :: 0 <= k < |a + b| ==> (a + b)[k] == if k < |a| then a[k] else b[k - |a|];
    if b != [] {
      var b0 := b[..|b| - 1];
      assert (a + b)[..|a + b| - 1] == a + b0;
      PayloadPartsAppend(a, b0);
    } else {
      assert a + b == a;
    }
  }

  /** A jsonArrayParser field: `integer` by default, written without the
      `payload.` prefix. */
  function ArrayPart(f: FieldSpec): (r: Option<string>)
    requires f.name.Some?
    ensures r.Some? <==> f.fieldType.GetOr("integer") in {"integer", "float"}
    ensures f.fieldType.None? ==> r == Some(f.name.value + "=${" + f.name.value + "}i")
    ensures f.fieldType.GetOr("integer") == "integer" ==> r == Some(f.name.value + "=${" + f.name.value + "}i")
    ensures f.fieldType.GetOr("integer") == "float" ==> r == Some(f.name.value + "=${" + f.name.value + "}")
  {
    var fieldType := f.fieldType.GetOr("integer");
    if fieldType == "integer" then Some(f.name.value + "=${" + f.name.value + "}i")
    else if fieldType == "float" then Some(f.name.value + "=${" + f.name.value + "}")
    else None
  }

  function ArrayParts(fields: seq<FieldSpec>): (r: seq<string>)
    requires Named(fields)
    ensures |r| <= |fields|
  {
    if fields == [] then []
    else ArrayParts(fields[..|fields| - 1]) + OptList(ArrayPart(fields[|fields| - 1]))
  }

  lemma {:induction false} ArrayPartsAppend(a: seq<FieldSpec>, b: seq<FieldSpec>)
    requires Named(a) && Named(b)
    ensures Named(a + b)
    ensures ArrayParts(a + b) == ArrayParts(a) + ArrayParts(b)
  {
    assert forall k :: 0 <= k < |a + b| ==> (a + b)[k] == if k < |a| then a[k] else b[k - |a|];
    if b != [] {
      var b0 := b[..|b| - 1];
      assert (a + b)[..|a + b| - 1] == a + b0;
      ArrayPartsAppend(a, b0);
    } else {
      assert a + b == a;
    }
  }

  /** The projection of one array field: its path under the alias, or the
      whole sample when it has no path. */
  function Projection(f: FieldSpec): string
    requires f.name.Some?
  {
    if Present(f.path) then ARRAY_ALIAS + "." + f.path.value + " as " + f.name.value
    else ARRAY_ALIAS + " as " + f.name.value
  }

  /** Every field is projected, whatever its type, even one the write
      syntax leaves out. */
  lemma ProjectionIgnoresType(f: FieldSpec, t: Option<string>)
    requires f.name.Some?
    ensures ArrayPart(f.(fieldType := Some("text"))).None?
    ensures Projection(f.(fieldType := t)) == Projection(f)
  {
  }

  function Projections(fields: seq<FieldSpec>): (r: seq<string>)
    requires Named(fields)
    ensures |r| == |fields|
  {
    seq(|fields|, k requires 0 <= k < |fields| => Projection(fields[k]))
  }

  /** The FOREACH query; a missing `arrayPath` prints as `None`. */
  function ForeachSql(arrayPath: Option<string>, doParts: seq<string>, topic: string): string {
    "FOREACH payload." + PyStr(arrayPath) + " as " + ARRAY_ALIAS + " DO " + Join(", ", doParts) + " FROM \"" + topic + "\""
  }

  /** The jsonPayloadParser loop: `None` where `field['name']` or
      `field['path']` raises KeyError. */
  method PayloadFields(fields: seq<FieldSpec>) returns (r: Option<seq<string>>)
    ensures r.None? <==> !NamedWithPath(fields)
    ensures r.Some? ==> NamedWithPath(fields) && r.value == PayloadParts(fields)
  {
    var parts: seq<string> := [];
    var i := 0;
    while i < |fields|
      invariant 0 <= i <= |fields|
      invariant NamedWithPath(fields[..i])
      invariant parts == PayloadParts(fields[..i])
    {
      var field := fields[i];
      if field.name.None? || field.path.None? {
        assert !NamedWithPath(fields) by {
          assert fields[i] == field;
        }
        return None;
      }
      assert fields[..i + 1][..i] == fields[..i];
      assert fields[..i + 1][i] == field;
      var fieldType := field.fieldType.GetOr("float");
      if fieldType == "integer" {
        parts := parts + [field.name.value + "=${payload." + field.path.value + "}i"];
      } else if fieldType == "float" {
        parts := parts + [field.name.value + "=${payload." + field.path.value + "}"];
      }
      i := i + 1;
    }
    assert fields[..i] == fields;
    r := Some(parts);
  }

  /** The jsonArrayParser loop: the projections and the field list, or
      `None` where `field['name']` raises KeyError. */
  method ArrayFields(fields: seq<FieldSpec>) returns (r: Option<(seq<string>, seq<string>)>)
    ensures r.None? <==> !Named(fields)
    ensures r.Some? ==> Named(fields)
    ensures r.Some? ==>
      && |r.value.0| == 2 + |fields| && r.value.0[..2] == ARRAY_ALIASES
      && (forall k :: 0 <= k < |fields| ==> r.value.0[2 + k] == Projection(fields[k]))
    ensures r.Some? ==> r.value == (ARRAY_ALIASES + Projections(fields), ArrayParts(fields))
  {
    var doParts := ARRAY_ALIASES;
    var parts: seq<string> := [];
    var i := 0;
    while i < |fields|
      invariant 0 <= i <= |fields|
      invariant Named(fields[..i])
      invariant doParts == ARRAY_ALIASES + Projections(fields[..i])
      invariant parts == ArrayParts(fields[..i])
    {
      var field := fields[i];
      if field.name.None? {
        assert !Named(fields) by {
          assert fields[i] == field;
        }
        return None;
      }
      assert fields[..i + 1][..i] == fields[..i];
      assert fields[..i + 1][i] == field;
      var fieldType := field.fieldType.GetOr("integer");
      if field.path.Some? && field.path.value != "" {
        doParts := doParts + [ARRAY_ALIAS + "." + field.path.value + " as " + field.name.value];
      } else {
        doParts := doParts + [ARRAY_ALIAS + " as " + field.name.value];
      }
      if fieldType == "integer" {
        parts := parts + [field.name.value + "=${" + field.name.value + "}i"];
      } else if fieldType == "float" {
        parts := parts + [field.name.value + "=${" + field.name.value + "}"];
      }
      i := i + 1;
    }
    assert fields[..i] == fields;
    r := Some((doParts, parts));
  }

  // ---------------------------------------------------------------------------
  // Entries

  /** The requests an entry or a run of entries sends, and whether a
      KeyError then stops the script. */
  datatype Outcome = Outcome(requests: seq<Request>, raised: bool)

  const NOTHING := Outcome([], false)

  /** Running one part of the script and then the rest: an exception stops
      everything after it. */
  function Then(first: Outcome, rest: Outcome): Outcome {
    if first.raised then first else Outcome(first.requests + rest.requests, rest.raised)
  }

  /** An action followed by its rule, named after measurement `m`. */
  predicate PairFor(rs: seq<Request>, m: string) {
    && |rs| == 2 && rs[0].CreateAction? && rs[1].CreateRule?
    && rs[0].action.name == ActionName(m)
    && rs[1].rule.name == RuleName(m) && rs[1].rule.id == RuleId(m)
    && rs[1].rule.actions == ["influxdb:" + rs[0].action.name]
  }

  /** The action, then the rule that routes to it. */
  function Publish(deviceName: string, entryName: string, m: string, writeSyntax: string, sql: string): (r: seq<Request>)
    ensures PairFor(r, m)
    ensures r[0].action.writeSyntax == writeSyntax && r[1].rule.sql == sql
  {
    [ActionRequest(ActionName(m), "InfluxDB action for " + deviceName + " - " + entryName, writeSyntax),
     RuleRequest(RuleId(m), RuleName(m), "Rule for " + deviceName + " - " + entryName, sql, ActionName(m))]
  }

  /** One characteristic of the inner loop. */
  function CharacteristicOutcome(deviceName: string, shortLower: string, c: Characteristic): Outcome {
    if c.structParser.None? || Skipped(shortLower, c.name, c.mqttTopic) then NOTHING
    else if !Named(c.structParser.value) then Outcome([], true)
    else
      var m := MeasureName(shortLower, CleanedName(c.name));
      Outcome(Publish(deviceName, PyStr(c.name), m, WriteSyntax(m, PAYLOAD_TAGS, StructParts(c.structParser.value)), SelectAll(c.mqttTopic.value)), false)
  }

  /** A characteristic sends an action and its rule iff it has a struct
      parser, is not skipped and names all its fields; a missing field name
      raises instead; the action writes every field as an integer, and the
      rule selects everything from the characteristic's topic. */
  lemma CharacteristicShape(deviceName: string, shortLower: string, c: Characteristic)
    ensures var r := CharacteristicOutcome(deviceName, shortLower, c);
      && (r.raised ==> r.requests == [])
      && (r.requests != [] <==> c.structParser.Some? && !Skipped(shortLower, c.name, c.mqttTopic) && Named(c.structParser.value))
      && (r.raised <==> c.structParser.Some? && !Skipped(shortLower, c.name, c.mqttTopic) && !Named(c.structParser.value))
    ensures var r := CharacteristicOutcome(deviceName, shortLower, c);
      r.requests != [] ==>
        && PairFor(r.requests, MeasureName(shortLower, CleanedName(c.name)))
        && r.requests[0].action.writeSyntax
           == WriteSyntax(MeasureName(shortLower, CleanedName(c.name)), PAYLOAD_TAGS, StructParts(c.structParser.value))
        && r.requests[1].rule.sql == SelectAll(c.mqttTopic.value)
  {
  }

  /** One whiteboard measure: jsonPayloadParser first, then jsonArrayParser,
      else nothing. */
  function MeasureOutcome(deviceName: string, shortLower: string, ms: Measure): Outcome {
    if Skipped(shortLower, ms.name, ms.mqttTopic) then NOTHING
    else
      var m := MeasureName(shortLower, CleanedName(ms.name));
      if ms.jsonPayloadParser.Some? then
        var fields := ms.jsonPayloadParser.value;
        if !NamedWithPath(fields) then Outcome([], true)
        else Outcome(Publish(deviceName, PyStr(ms.name), m, WriteSyntax(m, PAYLOAD_TAGS, PayloadParts(fields)), SelectAll(ms.mqttTopic.value)), false)
      else if ms.jsonArrayParser.Some? then
        var parser := ms.jsonArrayParser.value;
        if !Named(parser.fields) then Outcome([], true)
        else
          var sql := ForeachSql(parser.arrayPath, ARRAY_ALIASES + Projections(parser.fields), ms.mqttTopic.value);
          Outcome(Publish(deviceName, PyStr(ms.name), m, WriteSyntax(m, ARRAY_TAGS, ArrayParts(parser.fields)), sql), false)
      else NOTHING
  }

  /** A skipped measure, or one with neither parser, sends nothing; one that
      sends has its action and rule named after the measurement, with the
      payload template and a plain SELECT for jsonPayloadParser, and the
      placeholder template and the FOREACH query for jsonArrayParser. */
  lemma MeasureShape(deviceName: string, shortLower: string, ms: Measure)
    ensures var r := MeasureOutcome(deviceName, shortLower, ms);
      && (r.raised ==> r.requests == [])
      && (Skipped(shortLower, ms.name, ms.mqttTopic) ==> r == NOTHING)
      && (ms.jsonPayloadParser.None? && ms.jsonArrayParser.None? ==> r == NOTHING)
      && (r.requests != [] ==> PairFor(r.requests, MeasureName(shortLower, CleanedName(ms.name))))
    ensures var r := MeasureOutcome(deviceName, shortLower, ms);
      r.requests != [] && ms.jsonPayloadParser.Some? ==>
        && NamedWithPath(ms.jsonPayloadParser.value)
        && r.requests[0].action.writeSyntax
           == WriteSyntax(MeasureName(shortLower, CleanedName(ms.name)), PAYLOAD_TAGS, PayloadParts(ms.jsonPayloadParser.value))
        && r.requests[1].rule.sql == SelectAll(ms.mqttTopic.value)
    ensures var r := MeasureOutcome(deviceName, shortLower, ms);
      r.requests != [] && ms.jsonPayloadParser.None? ==>
        && ms.jsonArrayParser.Some? && Named(ms.jsonArrayParser.value.fields)
        && r.requests[0].action.writeSyntax
           == WriteSyntax(MeasureName(shortLower, CleanedName(ms.name)), ARRAY_TAGS, ArrayParts(ms.jsonArrayParser.value.fields))
        && r.requests[1].rule.sql
           == ForeachSql(ms.jsonArrayParser.value.arrayPath, ARRAY_ALIASES + Projections(ms.jsonArrayParser.value.fields), ms.mqttTopic.value)
  {
  }

  /** When both parsers are present, jsonArrayParser is never consulted. */
  lemma PayloadParserWins(deviceName: string, shortLower: string, ms: Measure)
    requires ms.jsonPayloadParser.Some?
    ensures MeasureOutcome(deviceName, shortLower, ms) == MeasureOutcome(deviceName, shortLower, ms.(jsonArrayParser := None))
  {
  }

  // ---------------------------------------------------------------------------
  // The loops of `main`

  /** An action and the rule just after it, both named after the same
      measurement, the rule routing to that action. */
  ghost predicate Linked(a: Request, b: Request) {
    && a.CreateAction? && b.CreateRule?
    && b.rule.actions == ["influxdb:" + a.action.name]
    && exists m :: a.action.name == ActionName(m) && b.rule.name == RuleName(m) && b.rule.id == RuleId(m)
  }

  /** Requests in action-then-rule pairs. */
  ghost predicate Paired(rs: seq<Request>)
    decreases |rs|
  {
    rs == [] || (|rs| >= 2 && Linked(rs[0], rs[1]) && Paired(rs[2..]))
  }

  lemma {:induction false} PairedAppend(a: seq<Request>, b: seq<Request>)
    requires Paired(a) && Paired(b)
    ensures Paired(a + b)
    decreases |a|
  {
    if a != [] {
      assert (a + b)[0] == a[0] && (a + b)[1] == a[1];
      assert (a + b)[2..] == a[2..] + b;
      PairedAppend(a[2..], b);
    } else {
      assert a + b == b;
    }
  }

  lemma PairForPaired(rs: seq<Request>, m: string)
    requires PairFor(rs, m)
    ensures Paired(rs)
  {
    assert rs[2..] == [];
    assert Linked(rs[0], rs[1]);
  }

  lemma ThenPaired(first: Outcome, rest: Outcome)
    requires Paired(first.requests) && Paired(rest.requests)
    ensures Paired(Then(first, rest).requests)
  {
    PairedAppend(first.requests, rest.requests);
  }

  function CharacteristicsOutcome(deviceName: string, shortLower: string, cs: seq<Characteristic>): Outcome {
    if cs == [] then NOTHING
    else Then(CharacteristicOutcome(deviceName, shortLower, cs[0]), CharacteristicsOutcome(deviceName, shortLower, cs[1..]))
  }

  function ServicesOutcome(deviceName: string, shortLower: string, ss: seq<Service>): Outcome {
    if ss == [] then NOTHING
    else Then(CharacteristicsOutcome(deviceName, shortLower, ss[0].characteristics), ServicesOutcome(deviceName, shortLower, ss[1..]))
  }

  function MeasuresOutcome(deviceName: string, shortLower: string, ms: seq<Measure>): Outcome {
    if ms == [] then NOTHING
    else Then(MeasureOutcome(deviceName, shortLower, ms[0]), MeasuresOutcome(deviceName, shortLower, ms[1..]))
  }

  /** One device: its characteristics in service order, then its whiteboard
      measures. */
  function DeviceOutcome(deviceName: string, d: Device): Outcome {
    var shortLower := Lower(d.shortName.GetOr(""));
    Then(ServicesOutcome(deviceName, shortLower, d.services),
         if d.whiteboard.Some? then MeasuresOutcome(deviceName, shortLower, d.whiteboard.value) else NOTHING)
  }

  /** The whole run of `main` over the catalogue. */
  function CatalogOutcome(devices: Catalog): Outcome {
    if devices == [] then NOTHING
    else Then(DeviceOutcome(devices[0].0, devices[0].1), CatalogOutcome(devices[1..]))
  }

  /** A skipped entry sends nothing and processing goes on with the next. */
  lemma SkippedEntryContinues(deviceName: string, shortLower: string, c: Characteristic, cs: seq<Characteristic>)
    requires Skipped(shortLower, c.name, c.mqttTopic)
    ensures CharacteristicsOutcome(deviceName, shortLower, [c] + cs) == CharacteristicsOutcome(deviceName, shortLower, cs)
  {
    assert ([c] + cs)[1..] == cs;
    assert [] + CharacteristicsOutcome(deviceName, shortLower, cs).requests == CharacteristicsOutcome(deviceName, shortLower, cs).requests;
  }

  /** A KeyError ends the script: nothing after it is sent. */
  lemma RaisedEntryStops(deviceName: string, shortLower: string, c: Characteristic, cs: seq<Characteristic>)
    requires CharacteristicOutcome(deviceName, shortLower, c).raised
    ensures CharacteristicsOutcome(deviceName, shortLower, [c] + cs) == Outcome([], true)
  {
    assert ([c] + cs)[0] == c;
  }

  lemma {:induction false} CharacteristicsPaired(deviceName: string, shortLower: string, cs: seq<Characteristic>)
    ensures Paired(CharacteristicsOutcome(deviceName, shortLower, cs).requests)
  {
    if cs != [] {
      var o := CharacteristicOutcome(deviceName, shortLower, cs[0]);
      CharacteristicShape(deviceName, shortLower, cs[0]);
      if o.requests != [] {
        PairForPaired(o.requests, MeasureName(shortLower, CleanedName(cs[0].name)));
      }
      CharacteristicsPaired(deviceName, shortLower, cs[1..]);
      ThenPaired(o, CharacteristicsOutcome(deviceName, shortLower, cs[1..]));
    }
  }

  lemma {:induction false} ServicesPaired(deviceName: string, shortLower: string, ss: seq<Service>)
    ensures Paired(ServicesOutcome(deviceName, shortLower, ss).requests)
  {
    if ss != [] {
      CharacteristicsPaired(deviceName, shortLower, ss[0].characteristics);
      ServicesPaired(deviceName, shortLower, ss[1..]);
      ThenPaired(CharacteristicsOutcome(deviceName, shortLower, ss[0].characteristics), ServicesOutcome(deviceName, shortLower, ss[1..]));
    }
  }

  lemma {:induction false} MeasuresPaired(deviceName: string, shortLower: string, ms: seq<Measure>)
    ensures Paired(MeasuresOutcome(deviceName, shortLower, ms).requests)
  {
    if ms != [] {
      var o := MeasureOutcome(deviceName, shortLower, ms[0]);
      MeasureShape(deviceName, shortLower, ms[0]);
      if o.requests != [] {
        PairForPaired(o.requests, MeasureName(shortLower, CleanedName(ms[0].name)));
      }
      MeasuresPaired(deviceName, shortLower, ms[1..]);
      ThenPaired(o, MeasuresOutcome(deviceName, shortLower, ms[1..]));
    }
  }

  /** Over the whole catalogue, every action is immediately followed by the
      rule that routes to it. */
  lemma {:induction false} CatalogPaired(devices: Catalog)
    ensures Paired(CatalogOutcome(devices).requests)
  {
    if devices != [] {
      var d := devices[0].1;
      var shortLower := Lower(d.shortName.GetOr(""));
      ServicesPaired(devices[0].0, shortLower, d.services);
      if d.whiteboard.Some? {
        MeasuresPaired(devices[0].0, shortLower, d.whiteboard.value);
      }
      ThenPaired(ServicesOutcome(devices[0].0, shortLower, d.services),
        if d.whiteboard.Some? then MeasuresOutcome(devices[0].0, shortLower, d.whiteboard.value) else NOTHING);
      CatalogPaired(devices[1..]);
      ThenPaired(DeviceOutcome(devices[0].0, d), CatalogOutcome(devices[1..]));
    }
  }

  /** One whiteboard measure, building its field lists by the loops above. */
  method TranslateMeasure(deviceName: string, shortLower: string, ms: Measure) returns (r: Outcome)
    ensures r == MeasureOutcome(deviceName, shortLower, ms)
  {
    var cleaned := Clean(Lower(ms.name.GetOr("")));
    if shortLower == "" || cleaned == "" || ms.mqttTopic.None? || ms.mqttTopic.value == "" {
      return NOTHING;
    }
    var m := MeasureName(shortLower, cleaned);
    if ms.jsonPayloadParser.Some? {
      var parts := PayloadFields(ms.jsonPayloadParser.value);
      if parts.None? {
        return Outcome([], true);
      }
      var writeSyntax := WriteSyntax(m, PAYLOAD_TAGS, parts.value);
      r := Outcome(Publish(deviceName, PyStr(ms.name), m, writeSyntax, SelectAll(ms.mqttTopic.value)), false);
    } else if ms.jsonArrayParser.Some? {
      var lists := ArrayFields(ms.jsonArrayParser.value.fields);
      if lists.None? {
        return Outcome([], true);
      }
      var sql := ForeachSql(ms.jsonArrayParser.value.arrayPath, lists.value.0, ms.mqttTopic.value);
      var writeSyntax := WriteSyntax(m, ARRAY_TAGS, lists.value.1);
      r := Outcome(Publish(deviceName, PyStr(ms.name), m, writeSyntax, sql), false);
    } else {
      r := NOTHING;
    }
  }

  /** The loop over a service's characteristics; a KeyError stops it. */
  method TranslateCharacteristics(deviceName: string, shortLower: string, cs: seq<Characteristic>) returns (r: Outcome)
    ensures r == CharacteristicsOutcome(deviceName, shortLower, cs)
  {
    var sent: seq<Request> := [];
    var i := 0;
    while i < |cs|
      invariant 0 <= i <= |cs|
      invariant CharacteristicsOutcome(deviceName, shortLower, cs) == Then(Outcome(sent, false), CharacteristicsOutcome(deviceName, shortLower, cs[i..]))
    {
      assert cs[i..][1..] == cs[i + 1..];
      var o := CharacteristicOutcome(deviceName, shortLower, cs[i]);
      if o.raised {
        return Outcome(sent + o.requests, true);
      }
      sent := sent + o.requests;
      i := i + 1;
    }
    assert sent + [] == sent;
    r := Outcome(sent, false);
  }

  /** The whiteboard loop over a device's measures. */
  method TranslateMeasures(deviceName: string, shortLower: string, ms: seq<Measure>) returns (r: Outcome)
    ensures r == MeasuresOutcome(deviceName, shortLower, ms)
  {
    var sent: seq<Request> := [];
    var i := 0;
    while i < |ms|
      invariant 0 <= i <= |ms|
      invariant MeasuresOutcome(deviceName, shortLower, ms) == Then(Outcome(sent, false), MeasuresOutcome(deviceName, shortLower, ms[i..]))
    {
      assert ms[i..][1..] == ms[i + 1..];
      var o := TranslateMeasure(deviceName, shortLower, ms[i]);
      if o.raised {
        return Outcome(sent + o.requests, true);
      }
      sent := sent + o.requests;
      i := i + 1;
    }
    assert sent + [] == sent;
    r := Outcome(sent, false);
  }

  /** The loop over a device's services, each with its characteristic loop. */
  method TranslateServices(deviceName: string, shortLower: string, ss: seq<Service>) returns (r: Outcome)
    ensures r == ServicesOutcome(deviceName, shortLower, ss)
  {
    var sent: seq<Request> := [];
    var i := 0;
    while i < |ss|
      invariant 0 <= i <= |ss|
      invariant ServicesOutcome(deviceName, shortLower, ss) == Then(Outcome(sent, false), ServicesOutcome(deviceName, shortLower, ss[i..]))
    {
      assert ss[i..][1..] == ss[i + 1..];
      var o := TranslateCharacteristics(deviceName, shortLower, ss[i].characteristics);
      if o.raised {
        return Outcome(sent + o.requests, true);
      }
      sent := sent + o.requests;
      i := i + 1;
    }
    assert sent + [] == sent;
    r := Outcome(sent, false);
  }

  /** One device of `main`: its services, then its whiteboard measures. */
  method TranslateDevice(deviceName: string, d: Device) returns (r: Outcome)
    ensures r == DeviceOutcome(deviceName, d)
  {
    var shortLower := Lower(d.shortName.GetOr(""));
    var o := TranslateServices(deviceName, shortLower, d.services);
    if o.raised {
      return o;
    }
    if d.whiteboard.Some? {
      var w := TranslateMeasures(deviceName, shortLower, d.whiteboard.value);
      r := Outcome(o.requests + w.requests, w.raised);
    } else {
      assert o.requests + [] == o.requests;
      r := o;
    }
  }

  /** `main` over a loaded catalogue. */
  method Translate(devices: Catalog) returns (r: Outcome)
    ensures r == CatalogOutcome(devices)
  {
    var sent: seq<Request> := [];
    var i := 0;
    while i < |devices|
      invariant 0 <= i <= |devices|
      invariant CatalogOutcome(devices) == Then(Outcome(sent, false), CatalogOutcome(devices[i..]))
    {
      assert devices[i..][1..] == devices[i + 1..];
      var o := TranslateDevice(devices[i].0, devices[i].1);
      if o.raised {
        return Outcome(sent + o.requests, true);
      }
      sent := sent + o.requests;
      i := i + 1;
    }
    assert sent + [] == sent;
    r := Outcome(sent, false);
  }
}
