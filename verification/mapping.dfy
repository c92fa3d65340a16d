/**
 * The payload-mapping schema: a `Mapping` describes one outbound call, a
 * `ControlThePayloadConfig` wraps one mapping under the key "mapping", and a
 * mapping file is a JSON array of such wrappers. Validation checks each
 * field's type and the method enumeration, fills defaults for absent keys,
 * ignores unknown keys, and accepts a list only when every entry is valid.
 */
module PayloadMapping {
  import opened Wrappers
  import opened Json

  /** The permitted HTTP methods. */
  datatype Method = POST | GET | DELETE | PUT

  /** `enabled: bool | str`: a literal flag, or a string the invoker evaluates. */
  datatype Enabled = Literal(flag: bool) | Dynamic(expression: string)

  /** `dict[str, str] | str`: a key/value mapping or a single string template. */
  datatype Template = KeyValue(entries: map<string, string>) | Text(template: string)

  datatype Mapping = Mapping(
    enabled: Enabled,
    httpMethod: Option<Method>,
    url: Option<string>,
    body: Option<Template>,
    headers: Option<Template>,
    query: Option<Template>)

  datatype ControlThePayloadConfig = ControlThePayloadConfig(mapping: Mapping)

  /** Where in the document an error is: list indices and object keys, outermost first. */
  datatype LocItem = Index(i: nat) | Key(name: string)

  datatype Reason =
    | FieldRequired
    | NoneNotAllowed
    | NotAList
    | NotADict
    | StrExpected
    | BoolOrStrExpected
    | DictOrStrExpected
    | UnexpectedValue(given: Json)

  datatype ValidationError = ValidationError(loc: seq<LocItem>, reason: Reason)

  // ---- the method enumeration ----

  function MethodName(m: Method): string {
    match m
    case POST => "POST"
    case GET => "GET"
    case DELETE => "DELETE"
    case PUT => "PUT"
  }

  /** The method a string names, if it is one of the four permitted spellings (case-sensitive). */
  function MethodOf(s: string): (r: Option<Method>)
    ensures r.Some? <==> s in {"POST", "GET", "DELETE", "PUT"}
    ensures r.Some? ==> MethodName(r.value) == s
  {
    if s == "POST" then Some(POST)
    else if s == "GET" then Some(GET)
    else if s == "DELETE" then Some(DELETE)
    else if s == "PUT" then Some(PUT)
    else None
  }

  lemma MethodOfName(m: Method)
    ensures MethodOf(MethodName(m)) == Some(m)
  {
  }

  // ---- single fields; `v` is the key's value, None when the key is absent ----

  /** `enabled`: default true; a bool or a string; null is not allowed. */
  function ValidateEnabled(v: Option<Json>): (r: Result<Enabled, Reason>)
    ensures v.None? ==> r == Success(Literal(true))
    ensures r.Success? && v.Some? ==>
      (v.value.JBool? && r.value == Literal(v.value.b)) || (v.value.JString? && r.value == Dynamic(v.value.s))
    ensures v.Some? && (v.value.JBool? || v.value.JString?) ==> r.Success?
  {
    match v
    case None => Success(Literal(true))
    case Some(JNull) => Failure(NoneNotAllowed)
    case Some(JBool(b)) => Success(Literal(b))
    case Some(JString(s)) => Success(Dynamic(s))
    case Some(_) => Failure(BoolOrStrExpected)
  }

  /** `method`: absent or null means no method; otherwise one of the four permitted strings. */
  function ValidateMethod(v: Option<Json>): (r: Result<Option<Method>, Reason>)
    ensures (v.None? || v == Some(JNull)) ==> r == Success(None)
    ensures v.Some? && v.value != JNull ==>
      (r.Success? <==> v.value.JString? && v.value.s in {"POST", "GET", "DELETE", "PUT"})
    ensures r.Success? && r.value.Some? ==> v == Some(JString(MethodName(r.value.value)))
    ensures r.Success? && v.Some? && v.value != JNull ==> r.value.Some?
  {
    match v
    case None => Success(None)
    case Some(JNull) => Success(None)
    case Some(JString(s)) =>
      (match MethodOf(s)
       case Some(m) => Success(Some(m))
       case None => Failure(UnexpectedValue(JString(s))))
    case Some(j) => Failure(UnexpectedValue(j))
  }

  /** `url`: absent or null means no URL; otherwise a string. */
  function ValidateUrl(v: Option<Json>): (r: Result<Option<string>, Reason>)
    ensures (v.None? || v == Some(JNull)) ==> r == Success(None)
    ensures v.Some? && v.value != JNull ==> (r.Success? <==> v.value.JString?)
    ensures r.Success? && r.value.Some? ==> v == Some(JString(r.value.value))
    ensures v.Some? && v.value.JString? ==> r == Success(Some(v.value.s))
  {
    match v
    case None => Success(None)
    case Some(JNull) => Success(None)
    case Some(JString(s)) => Success(Some(s))
    case Some(_) => Failure(StrExpected)
  }

  /** True when every member of the object is a string. */
  predicate AllStrings(members: map<string, Json>) {
    forall k | k in members :: members[k].JString?
  }

  /** `body`, `headers`, `query`: absent or null, a string template, or an object of strings. */
  function ValidateTemplate(v: Option<Json>): (r: Result<Option<Template>, Reason>)
    ensures (v.None? || v == Some(JNull)) ==> r == Success(None)
    ensures v.Some? && v.value != JNull ==>
      (r.Success? <==> v.value.JString? || (v.value.JObject? && AllStrings(v.value.members)))
    ensures r.Success? && r.value.Some? && r.value.value.KeyValue? ==>
      && v.Some? && v.value.JObject?
      && r.value.value.entries.Keys == v.value.members.Keys
      && forall k | k in v.value.members :: v.value.members[k] == JString(r.value.value.entries[k])
    ensures r.Success? && r.value.Some? && r.value.value.Text? ==>
      v == Some(JString(r.value.value.template))
    ensures r.Success? && v.Some? && v.value != JNull ==> r.value.Some?
    ensures v.Some? && v.value.JString? ==> r == Success(Some(Text(v.value.s)))
  {
    match v
    case None => Success(None)
    case Some(JNull) => Success(None)
    case Some(JObject(members)) =>
      if AllStrings(members) then Success(Some(KeyValue(map k | k in members :: members[k].s)))
      else Failure(DictOrStrExpected)
    case Some(JString(s)) => Success(Some(Text(s)))
    case Some(_) => Failure(DictOrStrExpected)
  }

  // ---- records ----

  function Lookup(members: map<string, Json>, key: string): Option<Json> {
    if key in members then Some(members[key]) else None
  }

  /** The error of one field, located under its key. */
  function FieldErrors<T>(key: string, r: Result<T, Reason>): seq<ValidationError> {
    if r.Failure? then [ValidationError([Key(key)], r.error)] else []
  }

  /** Errors moved one level down, under `item`. */
  function Under(item: LocItem, errors: seq<ValidationError>): (r: seq<ValidationError>)
    ensures |r| == |errors|
    ensures forall i :: 0 <= i < |r| ==> r[i] == errors[i].(loc := [item] + errors[i].loc)
  {
    seq(|errors|, i requires 0 <= i < |errors| => errors[i].(loc := [item] + errors[i].loc))
  }

  /** Validates one `Mapping` object; every field error is reported, in declaration order. */
  function ValidateMapping(j: Json): (r: Result<Mapping, seq<ValidationError>>)
    ensures r.Failure? ==> r.error != []
    ensures r.Success? <==>
      && j.JObject?
      && ValidateEnabled(Lookup(j.members, "enabled")).Success?
      && ValidateMethod(Lookup(j.members, "method")).Success?
      && ValidateUrl(Lookup(j.members, "url")).Success?
      && ValidateTemplate(Lookup(j.members, "body")).Success?
      && ValidateTemplate(Lookup(j.members, "headers")).Success?
      && ValidateTemplate(Lookup(j.members, "query")).Success?
    ensures r.Success? ==>
      && r.value.enabled == ValidateEnabled(Lookup(j.members, "enabled")).value
      && r.value.httpMethod == ValidateMethod(Lookup(j.members, "method")).value
      && r.value.url == ValidateUrl(Lookup(j.members, "url")).value
      && r.value.body == ValidateTemplate(Lookup(j.members, "body")).value
      && r.value.headers == ValidateTemplate(Lookup(j.members, "headers")).value
      && r.value.query == ValidateTemplate(Lookup(j.members, "query")).value
  {
    match j
    case JNull => Failure([ValidationError([], NoneNotAllowed)])
    case JObject(members) =>
      var enabled := ValidateEnabled(Lookup(members, "enabled"));
      var httpMethod := ValidateMethod(Lookup(members, "method"));
      var url := ValidateUrl(Lookup(members, "url"));
      var body := ValidateTemplate(Lookup(members, "body"));
      var headers := ValidateTemplate(Lookup(members, "headers"));
      var query := ValidateTemplate(Lookup(members, "query"));
      var errors := FieldErrors("enabled", enabled) + FieldErrors("method", httpMethod)
        + FieldErrors("url", url) + FieldErrors("body", body)
        + FieldErrors("headers", headers) + FieldErrors("query", query);
      if errors != [] then Failure(errors)
      else Success(Mapping(enabled.value, httpMethod.value, url.value, body.value, headers.value, query.value))
    case _ => Failure([ValidationError([], NotADict)])
  }

  /** Validates one `ControlThePayloadConfig`: an object whose "mapping" key holds a valid mapping. */
  function ValidateEntry(j: Json): (r: Result<ControlThePayloadConfig, seq<ValidationError>>)
    ensures r.Failure? ==> r.error != []
    ensures r.Success? <==> j.JObject? && "mapping" in j.members && ValidateMapping(j.members["mapping"]).Success?
    ensures r.Success? ==> r.value.mapping == ValidateMapping(j.members["mapping"]).value
  {
    match j
    case JObject(members) =>
      if "mapping" !in members then Failure([ValidationError([Key("mapping")], FieldRequired)])
      else
        (match ValidateMapping(members["mapping"])
         case Success(m) => Success(ControlThePayloadConfig(m))
         case Failure(errors) => Failure(Under(Key("mapping"), errors)))
    case JNull => Failure([ValidationError([], NoneNotAllowed)])
    case _ => Failure([ValidationError([], NotADict)])
  }

  function EntryErrors(r: Result<ControlThePayloadConfig, seq<ValidationError>>): seq<ValidationError> {
    if r.Failure? then r.error else []
  }

  /**
   * Validates the entries of the array, all or nothing: on success one record
   * per entry, in order; otherwise the errors of every invalid entry, each
   * located under its index.
   */
  function ValidateEntries(items: seq<Json>): (r: Result<seq<ControlThePayloadConfig>, seq<ValidationError>>)
    ensures r.Success? <==> forall k | 0 <= k < |items| :: ValidateEntry(items[k]).Success?
    ensures r.Success? ==>
      && |r.value| == |items|
      && forall k | 0 <= k < |items| :: ValidateEntry(items[k]) == Success(r.value[k])
    ensures r.Failure? ==> r.error != []
  {
    if items == [] then Success([])
    else
      var n := |items| - 1;
      var init := ValidateEntries(items[..n]);
      var last := ValidateEntry(items[n]);
      if init.Success? && last.Success? then Success(init.value + [last.value])
      else
        var initErrors := if init.Failure? then init.error else [];
        Failure(initErrors + Under(Index(n), EntryErrors(last)))
  }

  /** `list[ControlThePayloadConfig]`: the document must be an array of valid entries. */
  function ValidateConfigList(j: Json): (r: Result<seq<ControlThePayloadConfig>, seq<ValidationError>>)
    ensures r.Success? <==> j.JArray? && forall k | 0 <= k < |j.items| :: ValidateEntry(j.items[k]).Success?
    ensures r.Success? ==>
      && |r.value| == |j.items|
      && forall k | 0 <= k < |j.items| :: ValidateEntry(j.items[k]) == Success(r.value[k])
    ensures r.Failure? ==> r.error != []
  {
    match j
    case JArray(items) => ValidateEntries(items)
    case JNull => Failure([ValidationError([], NoneNotAllowed)])
    case _ => Failure([ValidationError([], NotAList)])
  }

  // ---- encoding, the partner of validation ----

  function EncodeEnabled(e: Enabled): Json {
    match e
    case Literal(b) => JBool(b)
    case Dynamic(s) => JString(s)
  }

  function EncodeTemplate(t: Option<Template>): Json {
    match t
    case None => JNull
    case Some(KeyValue(entries)) => JObject(map k | k in entries :: JString(entries[k]))
    case Some(Text(s)) => JString(s)
  }

  /** A mapping written back as the JSON object it was read from, every field spelled out. */
  function EncodeMapping(m: Mapping): Json {
    JObject(map[
      "enabled" := EncodeEnabled(m.enabled),
      "method" := if m.httpMethod.Some? then JString(MethodName(m.httpMethod.value)) else JNull,
      "url" := if m.url.Some? then JString(m.url.value) else JNull,
      "body" := EncodeTemplate(m.body),
      "headers" := EncodeTemplate(m.headers),
      "query" := EncodeTemplate(m.query)])
  }

  function EncodeEntry(c: ControlThePayloadConfig): Json {
    JObject(map["mapping" := EncodeMapping(c.mapping)])
  }

  /** A list of entries written back as a mapping file's JSON array. */
  function EncodeConfigList(cs: seq<ControlThePayloadConfig>): Json {
    JArray(seq(|cs|, i requires 0 <= i < |cs| => EncodeEntry(cs[i])))
  }

  lemma TemplateRoundTrip(t: Option<Template>)
    ensures ValidateTemplate(Some(EncodeTemplate(t))) == Success(t)
  {
    if t.Some? && t.value.KeyValue? {
      var entries := t.value.entries;
      var members := map k | k in entries :: JString(entries[k]);
      assert (map k | k in members :: members[k].s) == entries;
    }
  }

  lemma MappingRoundTrip(m: Mapping)
    ensures ValidateMapping(EncodeMapping(m)) == Success(m)
  {
    var members := EncodeMapping(m).members;
    assert Lookup(members, "enabled") == Some(EncodeEnabled(m.enabled));
    assert Lookup(members, "body") == Some(EncodeTemplate(m.body));
    assert Lookup(members, "headers") == Some(EncodeTemplate(m.headers));
    assert Lookup(members, "query") == Some(EncodeTemplate(m.query));
    TemplateRoundTrip(m.body);
    TemplateRoundTrip(m.headers);
    TemplateRoundTrip(m.query);
  }

  /** Writing a validated list back to a mapping file and validating it again gives the same records. */
  lemma ConfigListRoundTrip(cs: seq<ControlThePayloadConfig>)
    ensures ValidateConfigList(EncodeConfigList(cs)) == Success(cs)
  {
    var items := EncodeConfigList(cs).items;
    forall k | 0 <= k < |items|
      ensures ValidateEntry(items[k]) == Success(cs[k])
    {
      MappingRoundTrip(cs[k].mapping);
    }
    var r := ValidateConfigList(EncodeConfigList(cs));
    assert r.Success?;
    assert r.value == cs by {
      forall k | 0 <= k < |cs| ensures r.value[k] == cs[k] {
        assert ValidateEntry(items[k]) == Success(r.value[k]);
      }
    }
  }
}
