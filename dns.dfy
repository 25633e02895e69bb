/**
 * pkg/cli/cdn/dns.go: the request bodies of `dns add` and `dns update`,
 * the PROXIED and PROTOCOL columns of `dns list`, and the DNSSEC switch.
 */
module Dns {
  import opened Wrappers
  import opened JsonValue
  import opened Api
  import opened Commands
  import Text

  /** The flags `dns add` and `dns update` read. */
  datatype RecordFlags = RecordFlags(
    recordType: string,
    name: string,
    destination: string,
    ttl: int,
    priority: int,
    port: int,
    protocol: string,
    proxy: bool)

  /** The keys every add body carries. */
  const RecordKeys: set<string> := {"type", "name", "destination", "ttl", "protocol", "proxy"}

  /** The optional keys a body gains, each only for a positive flag. */
  function OptionalKeys(f: RecordFlags): set<string>
  {
    (if f.priority > 0 then {"priority"} else {}) + (if f.port > 0 then {"port"} else {})
  }

  /** The values a body of either command holds under the keys it shares with the add body. */
  predicate CarriesRecord(body: Body, f: RecordFlags)
  {
    && "type" in body && body["type"] == Str(f.recordType)
    && "name" in body && body["name"] == Str(f.name)
    && "destination" in body && body["destination"] == Str(f.destination)
    && "ttl" in body && body["ttl"] == IntNum(f.ttl)
    && "protocol" in body && body["protocol"] == Str(f.protocol)
    && "proxy" in body && body["proxy"] == Bool(f.proxy)
    && ("priority" in body ==> body["priority"] == IntNum(f.priority))
    && ("port" in body ==> body["port"] == IntNum(f.port))
  }

  /**
   * The body of `dns add`: the six record keys always, "priority" exactly
   * when the priority is positive and "port" exactly when the port is.
   */
  method AddBody(f: RecordFlags) returns (body: Body)
    ensures body.Keys == RecordKeys + OptionalKeys(f)
    ensures "priority" in body <==> f.priority > 0
    ensures "port" in body <==> f.port > 0
    ensures CarriesRecord(body, f)
  {
    body := map[
      "type" := Str(f.recordType),
      "name" := Str(f.name),
      "destination" := Str(f.destination),
      "ttl" := IntNum(f.ttl),
      "protocol" := Str(f.protocol),
      "proxy" := Bool(f.proxy)];
    if f.priority > 0 {
      body := body["priority" := IntNum(f.priority)];
    }
    if f.port > 0 {
      body := body["port" := IntNum(f.port)];
    }
  }

  /**
   * The body of `dns update`: the add body's keys under the same rule, plus
   * "record_id".
   */
  method UpdateBody(recordID: int, f: RecordFlags) returns (body: Body)
    ensures body.Keys == RecordKeys + OptionalKeys(f) + {"record_id"}
    ensures "priority" in body <==> f.priority > 0
    ensures "port" in body <==> f.port > 0
    ensures body["record_id"] == IntNum(recordID)
    ensures CarriesRecord(body, f)
  {
    body := map[
      "record_id" := IntNum(recordID),
      "type" := Str(f.recordType),
      "name" := Str(f.name),
      "destination" := Str(f.destination),
      "ttl" := IntNum(f.ttl),
      "protocol" := Str(f.protocol),
      "proxy" := Bool(f.proxy)];
    if f.priority > 0 {
      body := body["priority" := IntNum(f.priority)];
    }
    if f.port > 0 {
      body := body["port" := IntNum(f.port)];
    }
  }

  /** `dns add`: the add body, POSTed to the domain's record collection. */
  method AddCall(domainID: int, f: RecordFlags) returns (c: Call)
    ensures c.verb == POST && c.endpoint == DomainPath(domainID) + "/dns"
    ensures c.body.Some? && c.body.value.Obj?
    ensures c.body.value.fields.Keys == RecordKeys + OptionalKeys(f)
    ensures CarriesRecord(c.body.value.fields, f)
  {
    var body := AddBody(f);
    c := Call(POST, DomainPath(domainID) + "/dns", Some(Obj(body)));
  }

  /** `dns update`: the update body, PUT to the record's own path. */
  method UpdateCall(domainID: int, recordID: int, f: RecordFlags) returns (c: Call)
    ensures c.verb == PUT && c.endpoint == DomainPath(domainID) + "/dns/" + Text.Decimal(recordID)
    ensures c.body.Some? && c.body.value.Obj?
    ensures c.body.value.fields.Keys == RecordKeys + OptionalKeys(f) + {"record_id"}
    ensures c.body.value.fields["record_id"] == IntNum(recordID)
    ensures CarriesRecord(c.body.value.fields, f)
  {
    var body := UpdateBody(recordID, f);
    c := Call(PUT, DomainPath(domainID) + "/dns/" + Text.Decimal(recordID), Some(Obj(body)));
  }

  /** The PROXIED column. */
  function ProxiedLabel(proxy: string): (r: string)
    ensures r == "Yes" <==> proxy == "ACTIVE"
    ensures r == "Yes" || r == "No"
  {
    if proxy == "ACTIVE" then "Yes" else "No"
  }

  /**
   * The PROTOCOL column: "-" stands for an empty or DEFAULT protocol, any
   * other protocol is shown as it is, and ":<port>" follows exactly when the
   * port is positive, after "-" too.
   */
  function ProtocolLabel(protocol: string, port: int): (r: string)
    ensures var shown := if protocol == "" || protocol == "DEFAULT" then "-" else protocol;
      |shown| <= |r| && r[..|shown|] == shown &&
      (port > 0 ==> r[|shown|..] == ":" + Text.Decimal(port)) &&
      (port <= 0 ==> r == shown)
    ensures port > 0 ==> ':' in r
  {
    var shown := if protocol == "" || protocol == "DEFAULT" then "-" else protocol;
    if port > 0 then shown + ":" + Text.Decimal(port) else shown
  }

  /** An empty protocol and DEFAULT are shown alike, whatever the port. */
  lemma DefaultProtocolsAlike(port: int)
    ensures ProtocolLabel("", port) == ProtocolLabel("DEFAULT", port)
    ensures port <= 0 ==> ProtocolLabel("", port) == "-"
  {
  }

  /** `dns dnssec enable` and `disable`: one POST to the same path, only the flag differs. */
  function DnssecCall(domainID: int, enable: bool): (c: Call)
    ensures c.verb == POST
    ensures c.endpoint == DomainPath(domainID) + "/dns/dnssec"
    ensures c.body == Some(Obj(map["enabled" := Bool(enable)]))
  {
    Call(POST, DomainPath(domainID) + "/dns/dnssec", Some(Obj(map["enabled" := Bool(enable)])))
  }

  /** Enabling and disabling reach the same endpoint and send opposite flags. */
  lemma DnssecSwitch(domainID: int)
    ensures DnssecCall(domainID, true).endpoint == DnssecCall(domainID, false).endpoint
    ensures DnssecCall(domainID, true).body != DnssecCall(domainID, false).body
  {
    assert DnssecCall(domainID, true).body.value.fields["enabled"] == Bool(true);
  }
}
