/**
 * pkg/cli/cdn/cluster.go: load-balancer pool and server bodies, the
 * monitoring and server-status columns of `cluster list`, and the delete
 * confirmations.
 */
module Cluster {
  import opened Wrappers
  import opened JsonValue
  import opened Api
  import opened Commands
  import Text

  /** The flags `cluster add` and `cluster update` read. */
  datatype PoolFlags = PoolFlags(
    name: string,
    port: int,
    balancing: string,
    description: string,
    hashKey: string,
    errorReporting: bool)

  const PoolKeys: set<string> := {"name", "port", "method", "description", "error_reporting"}

  /**
   * The pool body of `cluster add` and `cluster update`: exactly the five
   * flag keys, plus "hash_key" exactly when a hash key was given, each
   * holding its flag's value.
   */
  predicate CarriesPool(body: Body, f: PoolFlags)
  {
    && body.Keys == PoolKeys + (if f.hashKey != "" then {"hash_key"} else {})
    && body["name"] == Str(f.name)
    && body["port"] == IntNum(f.port)
    && body["method"] == Str(f.balancing)
    && body["description"] == Str(f.description)
    && body["error_reporting"] == Bool(f.errorReporting)
    && (f.hashKey != "" ==> body["hash_key"] == Str(f.hashKey))
  }

  /** The pool body, built as the source builds it: a literal, then the optional key. */
  method PoolBody(f: PoolFlags) returns (body: Body)
    ensures CarriesPool(body, f)
    ensures "hash_key" in body <==> f.hashKey != ""
  {
    body := map[
      "name" := Str(f.name),
      "port" := IntNum(f.port),
      "method" := Str(f.balancing),
      "description" := Str(f.description),
      "error_reporting" := Bool(f.errorReporting)];
    if f.hashKey != "" {
      body := body["hash_key" := Str(f.hashKey)];
    }
  }

  /** `cluster add`: the pool body, POSTed to the domain's cluster collection. */
  method AddPoolCall(domainID: int, f: PoolFlags) returns (c: Call)
    ensures c.verb == POST && c.endpoint == DomainPath(domainID) + "/cluster"
    ensures c.body.Some? && c.body.value.Obj?
    ensures CarriesPool(c.body.value.fields, f)
    ensures "hash_key" in c.body.value.fields <==> f.hashKey != ""
  {
    var body := PoolBody(f);
    c := Call(POST, DomainPath(domainID) + "/cluster", Some(Obj(body)));
  }

  /** `cluster update`: the same body, PUT to the pool's own path. */
  method UpdatePoolCall(domainID: int, clusterID: int, f: PoolFlags) returns (c: Call)
    ensures c.verb == PUT && c.endpoint == DomainPath(domainID) + "/cluster/" + Text.Decimal(clusterID)
    ensures c.body.Some? && c.body.value.Obj?
    ensures CarriesPool(c.body.value.fields, f)
    ensures "hash_key" in c.body.value.fields <==> f.hashKey != ""
  {
    var body := PoolBody(f);
    c := Call(PUT, DomainPath(domainID) + "/cluster/" + Text.Decimal(clusterID), Some(Obj(body)));
  }

  /** The flags `cluster server add` reads. */
  datatype ServerFlags = ServerFlags(
    address: string,
    port: int,
    weight: int,
    priority: int,
    protocol: string,
    hostHeader: string)

  const ServerKeys: set<string> := {"address", "port", "weight", "priority", "protocol"}

  /**
   * The body of `cluster server add`: exactly the five flag keys, plus
   * "host_header" exactly when a host header was given, each holding its
   * flag's value.
   */
  predicate CarriesServer(body: Body, f: ServerFlags)
  {
    && body.Keys == ServerKeys + (if f.hostHeader != "" then {"host_header"} else {})
    && body["address"] == Str(f.address)
    && body["port"] == IntNum(f.port)
    && body["weight"] == IntNum(f.weight)
    && body["priority"] == IntNum(f.priority)
    && body["protocol"] == Str(f.protocol)
    && (f.hostHeader != "" ==> body["host_header"] == Str(f.hostHeader))
  }

  /** The server body, built as the source builds it: a literal, then the optional key. */
  method ServerBody(f: ServerFlags) returns (body: Body)
    ensures CarriesServer(body, f)
    ensures "host_header" in body <==> f.hostHeader != ""
  {
    body := map[
      "address" := Str(f.address),
      "port" := IntNum(f.port),
      "weight" := IntNum(f.weight),
      "priority" := IntNum(f.priority),
      "protocol" := Str(f.protocol)];
    if f.hostHeader != "" {
      body := body["host_header" := Str(f.hostHeader)];
    }
  }

  /** `cluster server add`: the server body, POSTed to the pool's server collection. */
  method ServerAddCall(domainID: int, clusterID: int, f: ServerFlags) returns (c: Call)
    ensures c.verb == POST
    ensures c.endpoint == DomainPath(domainID) + "/cluster/" + Text.Decimal(clusterID) + "/servers"
    ensures c.body.Some? && c.body.value.Obj?
    ensures CarriesServer(c.body.value.fields, f)
    ensures "host_header" in c.body.value.fields <==> f.hostHeader != ""
  {
    var body := ServerBody(f);
    c := Call(POST, DomainPath(domainID) + "/cluster/" + Text.Decimal(clusterID) + "/servers", Some(Obj(body)));
  }

  /**
   * The Monitoring line of `cluster list`: "off" for a pool without a
   * monitoring protocol, otherwise the protocol in lower case with
   * ":<port>" when the port is positive. The label reads "off" for an empty
   * protocol and also for a protocol spelled "OFF" in any case without a
   * port, and for nothing else.
   */
  method MonitoringLabel(protocol: string, port: int) returns (shown: string)
    ensures protocol == "" ==> shown == "off"
    ensures protocol != "" && port <= 0 ==> shown == Text.Lower(protocol)
    ensures protocol != "" && port > 0 ==> shown == Text.Lower(protocol) + ":" + Text.Decimal(port)
    ensures shown == "off" <==> protocol == "" || (Text.Lower(protocol) == "off" && port <= 0)
  {
    shown := "off";
    if protocol != "" {
      shown := Text.Lower(protocol);
      if port > 0 {
        shown := shown + ":" + Text.Decimal(port);
        assert shown[|shown| - 1] != 'f' by {
          var d := Text.Decimal(port);
          assert shown[|shown| - 1] == d[|d| - 1];
        }
      }
    }
  }

  /** The STATUS column of a server: "backup" exactly for priority -1. */
  function ServerStatus(priority: int): (r: string)
    ensures r == "backup" <==> priority == -1
    ensures r == "active" <==> priority != -1
  {
    if priority == -1 then "backup" else "active"
  }

  /** `cluster delete`: sent only with --force or an answer of exactly "yes". */
  function DeletePlan(domainID: int, clusterID: int, force: bool, answer: string): (p: Plan)
    ensures p.Send? <==> force || answer == "yes"
    ensures p.Send? ==> p.call == Call(DELETE, DomainPath(domainID) + "/cluster/" + Text.Decimal(clusterID), None)
    ensures !p.Send? ==> p == Aborted
  {
    ConfirmDelete(force, answer, DomainPath(domainID) + "/cluster/" + Text.Decimal(clusterID))
  }

  /** `cluster server delete`: the same confirmation rule. */
  function ServerDeletePlan(domainID: int, clusterID: int, serverID: int, force: bool, answer: string): (p: Plan)
    ensures p.Send? <==> force || answer == "yes"
    ensures p.Send? ==> p.call == Call(DELETE,
      DomainPath(domainID) + "/cluster/" + Text.Decimal(clusterID) + "/servers/" + Text.Decimal(serverID), None)
    ensures !p.Send? ==> p == Aborted
  {
    ConfirmDelete(force, answer,
      DomainPath(domainID) + "/cluster/" + Text.Decimal(clusterID) + "/servers/" + Text.Decimal(serverID))
  }
}
