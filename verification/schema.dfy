/**
  The record schema of the catalog (`modelSchema`), written as an explicit parser over
  untyped JSON values: `SafeParse` succeeds exactly on the values the schema accepts and
  returns the typed record, with every key the schema does not name dropped.
*/
module Schema {
  import opened Wrappers

  /** A parsed JSON value. An object is a map, so a key occurs at most once. */
  datatype Json =
    | JNull
    | JBool(b: bool)
    | JNumber(n: real)
    | JString(s: string)
    | JArray(items: seq<Json>)
    | JObject(fields: map<string, Json>)

  /** `modalitySchema` */
  datatype Modality = Text | Audio | Image | Video | Pdf

  /** `capabilitySchema` */
  datatype Capability = Tools | Vision | Reasoning | Embedding

  const ModalityNames: set<string> := {"text", "audio", "image", "video", "pdf"}
  const CapabilityNames: set<string> := {"tools", "vision", "reasoning", "embedding"}

  /** The keys the record schema names. */
  const ModelKeys: set<string> :=
    {"id", "name", "provider", "provider_id", "capabilities", "attachment", "temperature",
     "knowledge", "input_modalities", "output_modalities", "cost", "limit"}

  datatype Cost = Cost(input: real, output: real, cacheRead: Option<real>, cacheWrite: Option<real>)

  datatype Limit = Limit(context: real, output: real)

  /** A record that passed the schema. `None` marks an optional key that was absent. */
  datatype Model = Model(
    id: string,
    name: string,
    provider: string,
    providerId: string,
    capabilities: seq<Capability>,
    attachment: bool,
    temperature: bool,
    knowledge: Option<string>,
    inputModalities: Option<seq<Modality>>,
    outputModalities: Option<seq<Modality>>,
    cost: Cost,
    limit: Limit)

  // ---------------------------------------------------------------------------
  // Enumerations

  function ModalityName(m: Modality): (s: string)
    ensures s in ModalityNames
    ensures ParseModality(JString(s)) == Some(m)
  {
    match m
    case Text => "text"
    case Audio => "audio"
    case Image => "image"
    case Video => "video"
    case Pdf => "pdf"
  }

  /** A modality is one of exactly five strings; anything else is rejected. */
  function ParseModality(j: Json): (r: Option<Modality>)
    ensures r.Some? <==> j.JString? && j.s in ModalityNames
  {
    match j
    case JString(s) =>
      if s == "text" then Some(Text)
      else if s == "audio" then Some(Audio)
      else if s == "image" then Some(Image)
      else if s == "video" then Some(Video)
      else if s == "pdf" then Some(Pdf)
      else None
    case _ => None
  }

  function CapabilityName(c: Capability): (s: string)
    ensures s in CapabilityNames
    ensures ParseCapability(JString(s)) == Some(c)
  {
    match c
    case Tools => "tools"
    case Vision => "vision"
    case Reasoning => "reasoning"
    case Embedding => "embedding"
  }

  /** A capability is one of exactly four strings; anything else is rejected. */
  function ParseCapability(j: Json): (r: Option<Capability>)
    ensures r.Some? <==> j.JString? && j.s in CapabilityNames
  {
    match j
    case JString(s) =>
      if s == "tools" then Some(Tools)
      else if s == "vision" then Some(Vision)
      else if s == "reasoning" then Some(Reasoning)
      else if s == "embedding" then Some(Embedding)
      else None
    case _ => None
  }

  /** Each enumeration value is read back from exactly its own name. */
  lemma EnumNamesAreExact(j: Json)
    ensures forall m :: ParseModality(j) == Some(m) <==> j == JString(ModalityName(m))
    ensures forall c :: ParseCapability(j) == Some(c) <==> j == JString(CapabilityName(c))
  {
  }

  // ---------------------------------------------------------------------------
  // Primitive readers

  function AsString(j: Json): (r: Option<string>)
    ensures r.Some? ==> j == JString(r.value)
    ensures r.None? <==> !j.JString?
  {
    if j.JString? then Some(j.s) else None
  }

  /** `z.boolean()`: only a JSON boolean passes; there is no truthiness coercion. */
  function AsBool(j: Json): (r: Option<bool>)
    ensures r.Some? ==> j == JBool(r.value)
    ensures r.None? <==> !j.JBool?
  {
    if j.JBool? then Some(j.b) else None
  }

  /** `z.number()`: any number, with no sign or integrality constraint. */
  function AsNumber(j: Json): (r: Option<real>)
    ensures r.Some? ==> j == JNumber(r.value)
    ensures r.None? <==> !j.JNumber?
  {
    if j.JNumber? then Some(j.n) else None
  }

  /** Parse every element of a list; one bad element rejects the whole list. */
  function ParseEach<T>(items: seq<Json>, elem: Json -> Option<T>): (r: Option<seq<T>>)
    ensures r.Some? <==> forall i :: 0 <= i < |items| ==> elem(items[i]).Some?
    ensures r.Some? ==> |r.value| == |items|
    ensures r.Some? ==> forall i :: 0 <= i < |items| ==> elem(items[i]) == Some(r.value[i])
  {
    if items == [] then Some([])
    else
      match elem(items[0])
      case None => None
      case Some(x) =>
        match ParseEach(items[1..], elem)
        case None =>
          assert exists i :: 1 <= i < |items| && elem(items[i]).None? by {
            var k :| 0 <= k < |items[1..]| && elem(items[1..][k]).None?;
            assert elem(items[k + 1]).None?;
          }
          None
        case Some(xs) => Some([x] + xs)
  }

  /** `z.array(elem)`: the value must be a JSON array of well-formed elements. */
  function ParseArray<T>(j: Json, elem: Json -> Option<T>): (r: Option<seq<T>>)
  {
    if j.JArray? then ParseEach(j.items, elem) else None
  }

  /** A key the schema requires. */
  function Required<T>(o: map<string, Json>, key: string, read: Json -> Option<T>): Option<T>
  {
    if key in o then read(o[key]) else None
  }

  /** A key the schema marks `.optional()`: absence is accepted, a present value must be well-formed. */
  function Optional<T>(o: map<string, Json>, key: string, read: Json -> Option<T>): Option<Option<T>>
  {
    if key !in o then Some(None)
    else
      match read(o[key])
      case None => None
      case Some(x) => Some(Some(x))
  }

  function ParseModalities(j: Json): Option<seq<Modality>> {
    ParseArray(j, ParseModality)
  }

  function ParseCapabilities(j: Json): Option<seq<Capability>> {
    ParseArray(j, ParseCapability)
  }

  // ---------------------------------------------------------------------------
  // The record schema

  /** `key` holds a number. */
  predicate NumberAt(o: map<string, Json>, key: string) {
    key in o && o[key].JNumber?
  }

  /** `key` is absent or holds a number. */
  predicate AbsentOrNumber(o: map<string, Json>, key: string) {
    key in o ==> o[key].JNumber?
  }

  /** The `cost` object: `input` and `output` required, the two cache prices optional. */
  function ParseCost(j: Json): (r: Option<Cost>)
    ensures r.Some? <==>
      && j.JObject?
      && NumberAt(j.fields, "input") && NumberAt(j.fields, "output")
      && AbsentOrNumber(j.fields, "cache_read") && AbsentOrNumber(j.fields, "cache_write")
    ensures r.Some? ==> j.fields["input"] == JNumber(r.value.input)
    ensures r.Some? ==> j.fields["output"] == JNumber(r.value.output)
    ensures r.Some? ==> (r.value.cacheRead.Some? <==> "cache_read" in j.fields)
    ensures r.Some? && r.value.cacheRead.Some? ==> j.fields["cache_read"] == JNumber(r.value.cacheRead.value)
    ensures r.Some? ==> (r.value.cacheWrite.Some? <==> "cache_write" in j.fields)
    ensures r.Some? && r.value.cacheWrite.Some? ==> j.fields["cache_write"] == JNumber(r.value.cacheWrite.value)
  {
    match j
    case JObject(o) =>
      var input :- Required(o, "input", AsNumber);
      var output :- Required(o, "output", AsNumber);
      var cacheRead :- Optional(o, "cache_read", AsNumber);
      var cacheWrite :- Optional(o, "cache_write", AsNumber);
      Some(Cost(input, output, cacheRead, cacheWrite))
    case _ => None
  }

  /** The `limit` object: `context` and `output` required numbers, with no lower bound. */
  function ParseLimit(j: Json): (r: Option<Limit>)
    ensures r.Some? <==> j.JObject? && NumberAt(j.fields, "context") && NumberAt(j.fields, "output")
    ensures r.Some? ==> j.fields["context"] == JNumber(r.value.context)
    ensures r.Some? ==> j.fields["output"] == JNumber(r.value.output)
  {
    match j
    case JObject(o) =>
      var context :- Required(o, "context", AsNumber);
      var output :- Required(o, "output", AsNumber);
      Some(Limit(context, output))
    case _ => None
  }

  /**
    `modelSchema.safeParse`: `Some` with the typed record when the value passes, `None` when it
    fails. Only a JSON object can pass, and its two flags must be JSON booleans.
  */
  function SafeParse(j: Json): (r: Option<Model>)
    ensures r.Some? ==> j.JObject?
    ensures r.Some? ==> "attachment" in j.fields && j.fields["attachment"] == JBool(r.value.attachment)
    ensures r.Some? ==> "temperature" in j.fields && j.fields["temperature"] == JBool(r.value.temperature)
    ensures r.Some? ==> "cost" in j.fields && ParseCost(j.fields["cost"]) == Some(r.value.cost)
    ensures r.Some? ==> "limit" in j.fields && ParseLimit(j.fields["limit"]) == Some(r.value.limit)
  {
    match j
    case JObject(o) =>
      var id :- Required(o, "id", AsString);
      var name :- Required(o, "name", AsString);
      var provider :- Required(o, "provider", AsString);
      var providerId :- Required(o, "provider_id", AsString);
      var capabilities :- Required(o, "capabilities", ParseCapabilities);
      var attachment :- Required(o, "attachment", AsBool);
      var temperature :- Required(o, "temperature", AsBool);
      var knowledge :- Optional(o, "knowledge", AsString);
      var inputModalities :- Optional(o, "input_modalities", ParseModalities);
      var outputModalities :- Optional(o, "output_modalities", ParseModalities);
      var cost :- Required(o, "cost", ParseCost);
      var limit :- Required(o, "limit", ParseLimit);
      Some(Model(id, name, provider, providerId, capabilities, attachment, temperature,
                 knowledge, inputModalities, outputModalities, cost, limit))
    case _ => None
  }

  // ---------------------------------------------------------------------------
  // The inverse direction: writing a record back out as JSON

  function ModalitiesJson(ms: seq<Modality>): Json {
    JArray(seq(|ms|, i requires 0 <= i < |ms| => JString(ModalityName(ms[i]))))
  }

  function CapabilitiesJson(cs: seq<Capability>): Json {
    JArray(seq(|cs|, i requires 0 <= i < |cs| => JString(CapabilityName(cs[i]))))
  }

  /** Add an optional key when its value is present; leave it out when absent. */
  function Put<T>(o: map<string, Json>, key: string, v: Option<T>, write: T -> Json): map<string, Json> {
    if v.Some? then o[key := write(v.value)] else o
  }

  function CostJson(c: Cost): Json {
    JObject(Put(Put(map["input" := JNumber(c.input), "output" := JNumber(c.output)],
                    "cache_read", c.cacheRead, n => JNumber(n)),
                "cache_write", c.cacheWrite, n => JNumber(n)))
  }

  function LimitJson(l: Limit): Json {
    JObject(map["context" := JNumber(l.context), "output" := JNumber(l.output)])
  }

  /** The record as the JSON object the schema describes; absent optional keys are left out. */
  function ToJson(m: Model): Json {
    var required := map[
      "id" := JString(m.id),
      "name" := JString(m.name),
      "provider" := JString(m.provider),
      "provider_id" := JString(m.providerId),
      "capabilities" := CapabilitiesJson(m.capabilities),
      "attachment" := JBool(m.attachment),
      "temperature" := JBool(m.temperature),
      "cost" := CostJson(m.cost),
      "limit" := LimitJson(m.limit)];
    JObject(Put(Put(Put(required,
                        "knowledge", m.knowledge, s => JString(s)),
                    "input_modalities", m.inputModalities, ModalitiesJson),
                "output_modalities", m.outputModalities, ModalitiesJson))
  }

  lemma ModalitiesRoundTrip(ms: seq<Modality>)
    ensures ParseModalities(ModalitiesJson(ms)) == Some(ms)
  {
    var items := ModalitiesJson(ms).items;
    forall i | 0 <= i < |items|
      ensures ParseModality(items[i]) == Some(ms[i])
    {
      assert items[i] == JString(ModalityName(ms[i]));
    }
    var r := ParseEach(items, ParseModality);
    assert r.value == ms;
  }

  lemma CapabilitiesRoundTrip(cs: seq<Capability>)
    ensures ParseCapabilities(CapabilitiesJson(cs)) == Some(cs)
  {
    var items := CapabilitiesJson(cs).items;
    forall i | 0 <= i < |items|
      ensures ParseCapability(items[i]) == Some(cs[i])
    {
      assert items[i] == JString(CapabilityName(cs[i]));
    }
    var r := ParseEach(items, ParseCapability);
    assert r.value == cs;
  }

  lemma CostRoundTrip(c: Cost)
    ensures ParseCost(CostJson(c)) == Some(c)
  {
    var o := CostJson(c).fields;
    assert o["input"] == JNumber(c.input);
    assert o["output"] == JNumber(c.output);
    assert "cache_read" in o <==> c.cacheRead.Some?;
    assert c.cacheRead.Some? ==> o["cache_read"] == JNumber(c.cacheRead.value);
    assert "cache_write" in o <==> c.cacheWrite.Some?;
    assert c.cacheWrite.Some? ==> o["cache_write"] == JNumber(c.cacheWrite.value);
  }

  /** What the string-valued keys of a written-out record hold. */
  lemma ToJsonStrings(m: Model)
    ensures Required(ToJson(m).fields, "id", AsString) == Some(m.id)
    ensures Required(ToJson(m).fields, "name", AsString) == Some(m.name)
    ensures Required(ToJson(m).fields, "provider", AsString) == Some(m.provider)
    ensures Required(ToJson(m).fields, "provider_id", AsString) == Some(m.providerId)
  {
    var o := ToJson(m).fields;
    assert o["id"] == JString(m.id);
    assert o["name"] == JString(m.name);
    assert o["provider"] == JString(m.provider);
    assert o["provider_id"] == JString(m.providerId);
  }

  /** What the two flags of a written-out record hold. */
  lemma ToJsonFlags(m: Model)
    ensures Required(ToJson(m).fields, "attachment", AsBool) == Some(m.attachment)
    ensures Required(ToJson(m).fields, "temperature", AsBool) == Some(m.temperature)
  {
    var o := ToJson(m).fields;
    assert o["attachment"] == JBool(m.attachment);
    assert o["temperature"] == JBool(m.temperature);
  }

  /** What the nested and list-valued keys of a written-out record hold. */
  lemma ToJsonNested(m: Model)
    ensures Required(ToJson(m).fields, "capabilities", ParseCapabilities) == Some(m.capabilities)
    ensures Required(ToJson(m).fields, "cost", ParseCost) == Some(m.cost)
    ensures Required(ToJson(m).fields, "limit", ParseLimit) == Some(m.limit)
  {
    var o := ToJson(m).fields;
    CapabilitiesRoundTrip(m.capabilities);
    CostRoundTrip(m.cost);
    assert o["capabilities"] == CapabilitiesJson(m.capabilities);
    assert o["cost"] == CostJson(m.cost);
    assert o["limit"] == LimitJson(m.limit);
  }

  /** The optional keys of a written-out record are present exactly when the record has them. */
  lemma ToJsonOptional(m: Model)
    ensures Optional(ToJson(m).fields, "knowledge", AsString) == Some(m.knowledge)
    ensures Optional(ToJson(m).fields, "input_modalities", ParseModalities) == Some(m.inputModalities)
    ensures Optional(ToJson(m).fields, "output_modalities", ParseModalities) == Some(m.outputModalities)
  {
    if m.inputModalities.Some? {
      ModalitiesRoundTrip(m.inputModalities.value);
    }
    if m.outputModalities.Some? {
      ModalitiesRoundTrip(m.outputModalities.value);
    }
  }

  /** Every record, written out, passes the schema and reads back as itself. */
  lemma ParseToJson(m: Model)
    ensures SafeParse(ToJson(m)) == Some(m)
  {
    ToJsonStrings(m);
    ToJsonFlags(m);
    ToJsonNested(m);
    ToJsonOptional(m);
  }

  /** A list that reads as modalities is exactly the written-out form of what it reads as. */
  lemma ModalitiesInverse(j: Json, ms: seq<Modality>)
    requires ParseModalities(j) == Some(ms)
    ensures j == ModalitiesJson(ms)
  {
    var w := ModalitiesJson(ms);
    forall i | 0 <= i < |j.items|
      ensures j.items[i] == w.items[i]
    {
      EnumNamesAreExact(j.items[i]);
    }
  }

  /** A list that reads as capabilities is exactly the written-out form of what it reads as. */
  lemma CapabilitiesInverse(j: Json, cs: seq<Capability>)
    requires ParseCapabilities(j) == Some(cs)
    ensures j == CapabilitiesJson(cs)
  {
    var w := CapabilitiesJson(cs);
    forall i | 0 <= i < |j.items|
      ensures j.items[i] == w.items[i]
    {
      EnumNamesAreExact(j.items[i]);
    }
  }

  /** What each key of a passing value was read as. */
  lemma ParsedKeys(o: map<string, Json>)
    requires SafeParse(JObject(o)).Some?
    ensures
      var m := SafeParse(JObject(o)).value;
      && Required(o, "id", AsString) == Some(m.id)
      && Required(o, "name", AsString) == Some(m.name)
      && Required(o, "provider", AsString) == Some(m.provider)
      && Required(o, "provider_id", AsString) == Some(m.providerId)
      && Required(o, "capabilities", ParseCapabilities) == Some(m.capabilities)
      && Optional(o, "knowledge", AsString) == Some(m.knowledge)
      && Optional(o, "input_modalities", ParseModalities) == Some(m.inputModalities)
      && Optional(o, "output_modalities", ParseModalities) == Some(m.outputModalities)
  {
  }

  /** The value a written-out record holds under each key other than the two nested objects. */
  lemma ToJsonKeys(m: Model)
    ensures
      var o' := ToJson(m).fields;
      && o'["id"] == JString(m.id) && o'["name"] == JString(m.name)
      && o'["provider"] == JString(m.provider) && o'["provider_id"] == JString(m.providerId)
      && o'["capabilities"] == CapabilitiesJson(m.capabilities)
      && o'["attachment"] == JBool(m.attachment) && o'["temperature"] == JBool(m.temperature)
      && ("knowledge" in o' <==> m.knowledge.Some?)
      && (m.knowledge.Some? ==> o'["knowledge"] == JString(m.knowledge.value))
      && ("input_modalities" in o' <==> m.inputModalities.Some?)
      && (m.inputModalities.Some? ==> o'["input_modalities"] == ModalitiesJson(m.inputModalities.value))
      && ("output_modalities" in o' <==> m.outputModalities.Some?)
      && (m.outputModalities.Some? ==> o'["output_modalities"] == ModalitiesJson(m.outputModalities.value))
  {
  }

  /** Keys read as a record's fields hold exactly that record's written-out values. */
  lemma KeysReadBack(o: map<string, Json>, m: Model)
    requires Required(o, "id", AsString) == Some(m.id)
    requires Required(o, "name", AsString) == Some(m.name)
    requires Required(o, "provider", AsString) == Some(m.provider)
    requires Required(o, "provider_id", AsString) == Some(m.providerId)
    requires Required(o, "capabilities", ParseCapabilities) == Some(m.capabilities)
    requires Required(o, "attachment", AsBool) == Some(m.attachment)
    requires Required(o, "temperature", AsBool) == Some(m.temperature)
    requires Optional(o, "knowledge", AsString) == Some(m.knowledge)
    requires Optional(o, "input_modalities", ParseModalities) == Some(m.inputModalities)
    requires Optional(o, "output_modalities", ParseModalities) == Some(m.outputModalities)
    ensures
      var o' := ToJson(m).fields;
      forall k :: k in ModelKeys - {"cost", "limit"} ==>
        (k in o <==> k in o') && (k in o ==> o[k] == o'[k])
  {
    var o' := ToJson(m).fields;
    ToJsonKeys(m);
    CapabilitiesInverse(o["capabilities"], m.capabilities);
    if "input_modalities" in o {
      ModalitiesInverse(o["input_modalities"], m.inputModalities.value);
    }
    if "output_modalities" in o {
      ModalitiesInverse(o["output_modalities"], m.outputModalities.value);
    }
    forall k | k in ModelKeys - {"cost", "limit"}
      ensures (k in o <==> k in o') && (k in o ==> o[k] == o'[k])
    {
      assert k in {"id", "name", "provider", "provider_id", "capabilities", "attachment",
                   "temperature", "knowledge", "input_modalities", "output_modalities"};
    }
  }

  /**
    The converse of `ParseToJson`: a value that passes holds, under every key the schema names
    other than the two nested objects, exactly what its record writes back out. So a passing
    value has string identifiers, capability and modality lists of valid names, a string
    `knowledge` when present, and no optional key the record lacks.
  */
  lemma ParsedReadsBack(j: Json)
    requires SafeParse(j).Some?
    ensures
      var o, o' := j.fields, ToJson(SafeParse(j).value).fields;
      forall k :: k in ModelKeys - {"cost", "limit"} ==>
        (k in o <==> k in o') && (k in o ==> o[k] == o'[k])
  {
    var m := SafeParse(j).value;
    ParsedKeys(j.fields);
    KeysReadBack(j.fields, m);
  }

  // ---------------------------------------------------------------------------
  // What the schema does not constrain

  /** A key the schema does not name changes nothing: it is neither checked nor kept. */
  lemma ParseIgnoresUnknownKey(o: map<string, Json>, key: string, v: Json)
    requires key !in ModelKeys
    ensures SafeParse(JObject(o[key := v])) == SafeParse(JObject(o))
  {
    var o' := o[key := v];
    assert forall k :: k in ModelKeys ==> (k in o' <==> k in o) && (k in o ==> o'[k] == o[k]);
  }

  /** `knowledge` and both modality lists may be left out: the rest of the record still passes. */
  lemma OptionalKeysMayBeAbsent(j: Json)
    requires SafeParse(j).Some?
    ensures
      var m := SafeParse(j).value;
      SafeParse(JObject(j.fields - {"knowledge", "input_modalities", "output_modalities"}))
        == Some(m.(knowledge := None, inputModalities := None, outputModalities := None))
  {
    var o := j.fields;
    var o' := o - {"knowledge", "input_modalities", "output_modalities"};
    assert forall k :: k in ModelKeys - {"knowledge", "input_modalities", "output_modalities"} ==>
      (k in o' <==> k in o) && (k in o ==> o'[k] == o[k]);
  }

  /**
    Nothing beyond the types is demanded: limits may be negative, identifiers empty,
    and capabilities repeated. A corollary of `ParseToJson`, spelled out for these cases.
  */
  lemma NoFurtherConstraints(m: Model)
    requires m.limit.context < 0.0 && m.id == "" && m.capabilities == [Tools, Tools]
    ensures SafeParse(ToJson(m)) == Some(m)
  {
    ParseToJson(m);
  }

  /** The `cost` key is read on its own: replacing it can change only the record's cost. */
  lemma ParseWithCost(o: map<string, Json>, c: Json)
    requires SafeParse(JObject(o)).Some?
    ensures SafeParse(JObject(o["cost" := c]))
         == if ParseCost(c).Some? then Some(SafeParse(JObject(o)).value.(cost := ParseCost(c).value)) else None
  {
    var o' := o["cost" := c];
    ParsedKeys(o);
    assert Required(o', "attachment", AsBool) == Required(o, "attachment", AsBool);
    assert Required(o', "temperature", AsBool) == Required(o, "temperature", AsBool);
    assert Required(o', "limit", ParseLimit) == Required(o, "limit", ParseLimit);
    assert Required(o', "cost", ParseCost) == ParseCost(c);
  }
}
