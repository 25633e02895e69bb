/**
 * pkg/cli/cdn/ratelimit.go: the bodies POSTed by `ratelimit set`, `enable`
 * and `disable`, the decoding of the settings `disable` fetches first, and
 * the status word printed by `set`.
 */
module RateLimit {
  import opened Wrappers
  import opened JsonValue
  import opened Api
  import opened Commands
  import opened Types

  /**
   * The settings record the API returns. A list the API sends as `null` (or
   * leaves out) decodes into a nil Go slice, which is re-sent as `null`; that
   * is kept apart from an empty list by the Option.
   */
  datatype RateLimitSettings = RateLimitSettings(
    domainID: int,
    enabled: NumericBool,
    limit: int,
    block: int,
    allowMethods: Option<seq<string>>,
    whitelist: Option<seq<string>>,
    allowCountries: Option<seq<string>>,
    createdAt: string,
    updatedAt: string)

  /** The keys of every body POSTed to the rate-limit endpoint. */
  const BodyKeys: set<string> := {"mode", "request_count", "block_time", "methods", "ips", "countries"}

  function Endpoint(domainID: int): string
  {
    DomainPath(domainID) + "/ratelimit"
  }

  // ---------------------------------------------------------------- decoding

  /** A Go `int` field: absent or `null` leaves it 0, an in-range integer literal sets it. */
  function IntField(fields: map<string, Json>, key: string): (r: Result<int, DecodeError>)
    ensures r.Success? <==> key !in fields || fields[key].Null? || FitsInt64(fields[key])
    ensures r.Success? && key in fields && fields[key].IntNum? ==> r.value == fields[key].i
    ensures r.Success? && (key !in fields || fields[key].Null?) ==> r.value == 0
  {
    if key !in fields || fields[key].Null? then Success(0)
    else if FitsInt64(fields[key]) then Success(fields[key].i)
    else Failure(TypeMismatch)
  }

  /** A Go `string` field: absent or `null` leaves it "", a JSON string sets it. */
  function StringField(fields: map<string, Json>, key: string): (r: Result<string, DecodeError>)
    ensures r.Success? <==> key !in fields || StringLike(fields[key])
    ensures r.Success? && key in fields ==> r.value == AsGoString(fields[key])
    ensures r.Success? && key !in fields ==> r.value == ""
  {
    if key !in fields then Success("")
    else if StringLike(fields[key]) then Success(AsGoString(fields[key]))
    else Failure(TypeMismatch)
  }

  /** The Go strings of an array whose every element is `StringLike`. */
  function GoStrings(items: seq<Json>): (ss: seq<string>)
    ensures |ss| == |items|
    ensures forall k :: 0 <= k < |items| ==> ss[k] == AsGoString(items[k])
  {
    seq(|items|, k requires 0 <= k < |items| => AsGoString(items[k]))
  }

  /**
   * A Go `[]string` field: absent or `null` leaves a nil slice, an array of
   * strings (whose `null` elements become "") sets it, anything else fails.
   */
  function ListField(fields: map<string, Json>, key: string): (r: Result<Option<seq<string>>, DecodeError>)
    ensures r.Success? <==> key !in fields || fields[key].Null? || StringArray(fields[key])
    ensures r.Success? ==> (r.value.None? <==> key !in fields || fields[key].Null?)
    ensures r.Success? && r.value.Some? ==>
      |r.value.value| == |fields[key].items| &&
      forall k :: 0 <= k < |r.value.value| ==> r.value.value[k] == AsGoString(fields[key].items[k])
  {
    if key !in fields || fields[key].Null? then Success(None)
    else if StringArray(fields[key]) then Success(Some(GoStrings(fields[key].items)))
    else Failure(TypeMismatch)
  }

  /** The Go zero value of the settings record, what decoding `null` leaves. */
  const ZeroSettings := RateLimitSettings(0, NumericBool(false), 0, 0, None, None, None, "", "")

  /**
   * `json.Unmarshal` into RateLimitSettings: `null` leaves the zero record,
   * an object is decoded field by field (unknown keys are ignored, a field
   * of the wrong shape fails the whole decode), anything else fails.
   */
  function DecodeSettings(data: Json): (r: Result<RateLimitSettings, DecodeError>)
    ensures data.Null? ==> r == Success(ZeroSettings)
    ensures !data.Null? && !data.Obj? ==> r.Failure?
    ensures data.Obj? && r.Success? ==>
      IntField(data.fields, "limit") == Success(r.value.limit) &&
      IntField(data.fields, "block") == Success(r.value.block) &&
      ListField(data.fields, "allow_methods") == Success(r.value.allowMethods) &&
      ListField(data.fields, "whitelist") == Success(r.value.whitelist) &&
      ListField(data.fields, "allow_countries") == Success(r.value.allowCountries)
    ensures data.Obj? ==> (r.Success? <==>
      IntField(data.fields, "domain_id").Success? &&
      IntField(data.fields, "limit").Success? &&
      IntField(data.fields, "block").Success? &&
      ListField(data.fields, "allow_methods").Success? &&
      ListField(data.fields, "whitelist").Success? &&
      ListField(data.fields, "allow_countries").Success? &&
      StringField(data.fields, "created_at").Success? &&
      StringField(data.fields, "updated_at").Success?)
  {
    match data
    case Null => Success(ZeroSettings)
    case Obj(f) =>
      var enabled := if "enabled" in f then DecodeNumericBool(f["enabled"]).value else NumericBool(false);
      var domainID := IntField(f, "domain_id");
      var limit := IntField(f, "limit");
      var block := IntField(f, "block");
      var methods := ListField(f, "allow_methods");
      var whitelist := ListField(f, "whitelist");
      var countries := ListField(f, "allow_countries");
      var created := StringField(f, "created_at");
      var updated := StringField(f, "updated_at");
      if domainID.Success? && limit.Success? && block.Success? && methods.Success? &&
         whitelist.Success? && countries.Success? && created.Success? && updated.Success?
      then
        Success(RateLimitSettings(domainID.value, enabled, limit.value, block.value,
          methods.value, whitelist.value, countries.value, created.value, updated.value))
      else
        Failure(TypeMismatch)
    case _ => Failure(TypeMismatch)
  }

  // ---------------------------------------------------------------- bodies

  /** How a Go `[]string` is encoded: a nil slice as `null`, otherwise an array of strings. */
  function ListJson(list: Option<seq<string>>): (j: Json)
    ensures list.None? <==> j.Null?
    ensures list.Some? ==> j == StrList(list.value)
  {
    if list.None? then Null else StrList(list.value)
  }

  /**
   * `ratelimit set`: the flags go into the body under the API's names,
   * enabled as "mode"; the lists come from flags whose default is an empty,
   * non-nil slice, so they are always arrays.
   */
  function SetBody(enabled: bool, requestCount: int, blockTime: int,
                   methods: seq<string>, ips: seq<string>, countries: seq<string>): (body: Body)
    ensures body.Keys == BodyKeys
    ensures body["mode"] == Bool(enabled)
    ensures body["request_count"] == IntNum(requestCount) && body["block_time"] == IntNum(blockTime)
    ensures body["methods"] == StrList(methods) && body["ips"] == StrList(ips)
    ensures body["countries"] == StrList(countries)
  {
    map[
      "mode" := Bool(enabled),
      "request_count" := IntNum(requestCount),
      "block_time" := IntNum(blockTime),
      "methods" := StrList(methods),
      "ips" := StrList(ips),
      "countries" := StrList(countries)]
  }

  /** `ratelimit enable`: mode on, the given limits, and all three whitelists emptied. */
  function EnableBody(requestCount: int, blockTime: int): (body: Body)
    ensures body == SetBody(true, requestCount, blockTime, [], [], [])
    ensures body["mode"] == Bool(true)
    ensures body["methods"] == Arr([]) && body["ips"] == Arr([]) && body["countries"] == Arr([])
  {
    map[
      "mode" := Bool(true),
      "request_count" := IntNum(requestCount),
      "block_time" := IntNum(blockTime),
      "methods" := StrList([]),
      "ips" := StrList([]),
      "countries" := StrList([])]
  }

  /**
   * `ratelimit disable`: mode off; everything else is the fetched settings
   * sent back, a nil list as `null`.
   */
  function DisableBody(s: RateLimitSettings): (body: Body)
    ensures body.Keys == BodyKeys
    ensures body["mode"] == Bool(false)
    ensures body["request_count"] == IntNum(s.limit) && body["block_time"] == IntNum(s.block)
    ensures body["methods"] == ListJson(s.allowMethods) && body["ips"] == ListJson(s.whitelist)
    ensures body["countries"] == ListJson(s.allowCountries)
    ensures s.allowMethods.Some? && s.whitelist.Some? && s.allowCountries.Some? ==>
      body == SetBody(false, s.limit, s.block, s.allowMethods.value, s.whitelist.value, s.allowCountries.value)
  {
    map[
      "mode" := Bool(false),
      "request_count" := IntNum(s.limit),
      "block_time" := IntNum(s.block),
      "methods" := ListJson(s.allowMethods),
      "ips" := ListJson(s.whitelist),
      "countries" := ListJson(s.allowCountries)]
  }

  /** Encoding a Go `[]string` and decoding it again gives the same slice, nil included. */
  lemma ListRoundTrip(fields: map<string, Json>, key: string, list: Option<seq<string>>)
    requires key in fields && fields[key] == ListJson(list)
    ensures ListField(fields, key) == Success(list)
  {
    if list.Some? {
      assert StringArray(StrList(list.value));
      assert GoStrings(StrList(list.value).items) == list.value;
    }
  }

  /**
   * What `disable` sends back reads as what it fetched: decoding the body's
   * limit, block and list fields gives exactly the decoded settings' values,
   * and only the mode changes, to off.
   */
  lemma DisableKeepsSettings(data: Json, s: RateLimitSettings)
    requires DecodeSettings(data) == Success(s)
    ensures DisableBody(s)["mode"] == Bool(false)
    ensures IntField(DisableBody(s), "request_count") == Success(s.limit)
    ensures IntField(DisableBody(s), "block_time") == Success(s.block)
    ensures ListField(DisableBody(s), "methods") == Success(s.allowMethods)
    ensures ListField(DisableBody(s), "ips") == Success(s.whitelist)
    ensures ListField(DisableBody(s), "countries") == Success(s.allowCountries)
  {
    var body := DisableBody(s);
    ListRoundTrip(body, "methods", s.allowMethods);
    ListRoundTrip(body, "ips", s.whitelist);
    ListRoundTrip(body, "countries", s.allowCountries);
  }

  /**
   * `ratelimit disable` as a whole: the GET's outcome is decoded, and the
   * POST is sent only when both the GET and the decoding succeeded.
   */
  function DisablePlan(domainID: int, fetched: Result<Response, ApiError>): (p: Plan)
    ensures p.Send? <==> fetched.Success? && ParseData(fetched.value, DecodeSettingsOpt).Success?
    ensures p.Send? ==> p.call == Call(POST, Endpoint(domainID),
      Some(Obj(DisableBody(ParseData(fetched.value, DecodeSettingsOpt).value))))
    ensures !p.Aborted?
  {
    if fetched.Failure? then Reject(ErrorText(fetched.error))
    else
      var settings := ParseData(fetched.value, DecodeSettingsOpt);
      if settings.Failure? then Reject("failed to parse settings")
      else Send(Call(POST, Endpoint(domainID), Some(Obj(DisableBody(settings.value)))))
  }

  /** DecodeSettings in the shape ParseData takes. */
  function DecodeSettingsOpt(data: Json): Option<RateLimitSettings>
  {
    match DecodeSettings(data)
    case Success(s) => Some(s)
    case Failure(_) => None
  }

  /** `ratelimit set` call: the set body POSTed to the domain's rate-limit endpoint. */
  function SetCall(domainID: int, enabled: bool, requestCount: int, blockTime: int,
                   methods: seq<string>, ips: seq<string>, countries: seq<string>): (c: Call)
    ensures c.verb == POST && c.endpoint == DomainPath(domainID) + "/ratelimit"
    ensures c.body == Some(Obj(SetBody(enabled, requestCount, blockTime, methods, ips, countries)))
  {
    Call(POST, Endpoint(domainID), Some(Obj(SetBody(enabled, requestCount, blockTime, methods, ips, countries))))
  }

  /** The word `ratelimit set` prints: "disabled" exactly when --enabled=false. */
  function StatusWord(enabled: bool): (w: string)
    ensures w == "disabled" <==> !enabled
    ensures w == "enabled" <==> enabled
  {
    if enabled then "enabled" else "disabled"
  }
}
