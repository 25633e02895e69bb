/**
 * pkg/cli/cdn/logforwarder.go: the add body with its optional, validated
 * config, the update body with its optional keys, and the delete
 * confirmation.
 */
module LogForwarder {
  import opened Wrappers
  import opened JsonValue
  import opened Api
  import opened Commands
  import Text

  const InvalidConfig := "invalid config JSON"

  function Collection(domainID: int): string
  {
    DomainPath(domainID) + "/log-forwarders"
  }

  /**
   * `logforwarder add`. The four flag keys are always sent; a non-empty
   * --config must parse (by `parse`, the JSON reader) into an object, and is
   * then sent under "config"; otherwise the command fails before any
   * request. An empty --config adds no key.
   */
  method AddPlan(domainID: int, name: string, forwarderType: string, endpoint: string,
                 enabled: bool, config: string, parse: string -> Option<Json>) returns (p: Plan)
    ensures !p.Aborted?
    ensures p.Reject? <==> config != "" && (parse(config).None? || !ObjectLike(parse(config).value))
    ensures p.Reject? ==> p.reason == InvalidConfig
    ensures p.Send? ==>
      p.call.verb == POST && p.call.endpoint == Collection(domainID) &&
      p.call.body.Some? && p.call.body.value.Obj? &&
      var body := p.call.body.value.fields;
      body.Keys == {"name", "type", "endpoint", "enabled"} + (if config != "" then {"config"} else {}) &&
      body["name"] == Str(name) && body["type"] == Str(forwarderType) &&
      body["endpoint"] == Str(endpoint) && body["enabled"] == Bool(enabled) &&
      (config != "" ==> Some(body["config"]) == parse(config))
  {
    var body: Body := map[
      "name" := Str(name),
      "type" := Str(forwarderType),
      "endpoint" := Str(endpoint),
      "enabled" := Bool(enabled)];
    if config != "" {
      var parsed := parse(config);
      if parsed.None? || !ObjectLike(parsed.value) {
        return Reject(InvalidConfig);
      }
      body := body["config" := parsed.value];
    }
    p := Send(Call(POST, Collection(domainID), Some(Obj(body))));
  }

  /**
   * The body of `logforwarder update`: "name" and "endpoint" exactly when
   * given, "enabled" always, and nothing else, each holding its flag's value.
   */
  predicate CarriesUpdate(body: Body, name: string, endpoint: string, enabled: bool)
  {
    && body.Keys == {"enabled"} + (if name != "" then {"name"} else {}) + (if endpoint != "" then {"endpoint"} else {})
    && body["enabled"] == Bool(enabled)
    && (name != "" ==> body["name"] == Str(name))
    && (endpoint != "" ==> body["endpoint"] == Str(endpoint))
  }

  /** The update body, built as the source builds it: empty, then key by key. */
  method UpdateBody(name: string, endpoint: string, enabled: bool) returns (body: Body)
    ensures CarriesUpdate(body, name, endpoint, enabled)
    ensures "name" in body <==> name != ""
    ensures "endpoint" in body <==> endpoint != ""
  {
    body := map[];
    if name != "" {
      body := body["name" := Str(name)];
    }
    if endpoint != "" {
      body := body["endpoint" := Str(endpoint)];
    }
    body := body["enabled" := Bool(enabled)];
  }

  /** `logforwarder update` call: the update body PUT to the forwarder's path. */
  method UpdateCall(domainID: int, forwarderID: int, name: string, endpoint: string, enabled: bool)
    returns (c: Call)
    ensures c.verb == PUT && c.endpoint == Collection(domainID) + "/" + Text.Decimal(forwarderID)
    ensures c.body.Some? && c.body.value.Obj?
    ensures CarriesUpdate(c.body.value.fields, name, endpoint, enabled)
    ensures "name" in c.body.value.fields <==> name != ""
    ensures "endpoint" in c.body.value.fields <==> endpoint != ""
  {
    var body := UpdateBody(name, endpoint, enabled);
    c := Call(PUT, Collection(domainID) + "/" + Text.Decimal(forwarderID), Some(Obj(body)));
  }

  /**
   * `logforwarder delete <id>`: the id is the positional argument, used in
   * the path as typed; sent only with --force or the answer "yes".
   */
  function DeletePlan(domainID: int, forwarderID: string, force: bool, answer: string): (p: Plan)
    ensures p.Send? <==> force || answer == "yes"
    ensures p.Send? ==> p.call == Call(DELETE, Collection(domainID) + "/" + forwarderID, None)
    ensures !p.Send? ==> p == Aborted
  {
    ConfirmDelete(force, answer, Collection(domainID) + "/" + forwarderID)
  }
}
