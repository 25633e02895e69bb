/** pkg/cli/cdn/cache.go: `cache purge`, its body and its refusal. */
module Cache {
  import opened Wrappers
  import opened JsonValue
  import opened Api
  import opened Commands
  import Text

  const PurgeUsage := "specify --all or --url"

  /**
   * `cache purge`: the body always names the domain; --all adds
   * purge_all = true and no URL list even when URLs were given; otherwise a
   * non-empty URL list is sent under "urls"; with neither, the command fails
   * and sends nothing.
   */
  method PurgePlan(domainID: int, urls: seq<string>, all: bool) returns (p: Plan)
    ensures p.Reject? <==> !all && |urls| == 0
    ensures p.Reject? ==> p.reason == PurgeUsage
    ensures !p.Aborted?
    ensures p.Send? ==>
      p.call.verb == POST &&
      p.call.endpoint == DomainPath(domainID) + "/cache/edge/purge-cache" &&
      p.call.body.Some? && p.call.body.value.Obj? &&
      var body := p.call.body.value.fields;
      body.Keys == {"domain_id", if all then "purge_all" else "urls"} &&
      body["domain_id"] == IntNum(domainID) &&
      (all ==> body["purge_all"] == Bool(true)) &&
      (!all ==> body["urls"] == StrList(urls))
  {
    var body: Body := map["domain_id" := IntNum(domainID)];
    if all {
      body := body["purge_all" := Bool(true)];
    } else if |urls| > 0 {
      body := body["urls" := StrList(urls)];
    } else {
      return Reject(PurgeUsage);
    }
    p := Send(Call(POST, DomainPath(domainID) + "/cache/edge/purge-cache", Some(Obj(body))));
  }

  /** The message after a successful purge: the URL count is the number given. */
  function PurgeMessage(all: bool, urls: seq<string>): (m: string)
    ensures all ==> m == "All cache purged successfully"
    ensures !all ==> m == "Purged " + Text.Decimal(|urls|) + " URL(s) successfully"
  {
    if all then "All cache purged successfully"
    else "Purged " + Text.Decimal(|urls|) + " URL(s) successfully"
  }
}
