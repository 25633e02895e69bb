/**
 * pkg/cli/cdn/pagerules.go: the list endpoint chosen by rule type, the
 * set-rule body with its pre-validated settings, the delete-rule path and
 * the delete-path confirmation.
 */
module PageRules {
  import opened Wrappers
  import opened JsonValue
  import opened Api
  import opened Commands
  import Text

  const InvalidSettings := "invalid settings JSON"

  function Paths(domainID: int): string
  {
    DomainPath(domainID) + "/paths"
  }

  /**
   * `pagerules list`: all paths when the type is empty or "all", otherwise
   * the paths of that rule type, appended as typed.
   */
  function ListEndpoint(domainID: int, ruleType: string): (endpoint: string)
    ensures ruleType == "" || ruleType == "all" ==> endpoint == Paths(domainID)
    ensures ruleType != "" && ruleType != "all" ==> endpoint == Paths(domainID) + "/" + ruleType
    ensures endpoint == Paths(domainID) <==> ruleType == "" || ruleType == "all"
  {
    if ruleType != "" && ruleType != "all" then Paths(domainID) + "/" + ruleType
    else Paths(domainID)
  }

  /** Every type other than "" and "all" selects its own endpoint. */
  lemma FilteredEndpointsDistinct(domainID: int, t1: string, t2: string)
    requires t1 != "" && t1 != "all" && t2 != "" && t2 != "all"
    requires ListEndpoint(domainID, t1) == ListEndpoint(domainID, t2)
    ensures t1 == t2
  {
    var prefix := Paths(domainID) + "/";
    assert ListEndpoint(domainID, t1) == prefix + t1;
    assert ListEndpoint(domainID, t2) == prefix + t2;
    assert t1 == (prefix + t1)[|prefix|..];
    assert t2 == (prefix + t2)[|prefix|..];
  }

  /**
   * `pagerules set-rule`: --settings (default "{}") must parse into an
   * object, or the command fails before any request; the body is then
   * exactly the rule type and the parsed settings.
   */
  function SetRulePlan(domainID: int, pathID: int, ruleType: string, settings: string,
                       parse: string -> Option<Json>): (p: Plan)
    ensures !p.Aborted?
    ensures p.Reject? <==> parse(settings).None? || !ObjectLike(parse(settings).value)
    ensures p.Reject? ==> p.reason == InvalidSettings
    ensures p.Send? ==>
      p.call.verb == POST &&
      p.call.endpoint == Paths(domainID) + "/" + Text.Decimal(pathID) + "/rules" &&
      p.call.body == Some(Obj(map["type" := Str(ruleType), "settings" := parse(settings).value]))
  {
    var parsed := parse(settings);
    if parsed.None? || !ObjectLike(parsed.value) then Reject(InvalidSettings)
    else Send(Call(POST, Paths(domainID) + "/" + Text.Decimal(pathID) + "/rules",
      Some(Obj(map["type" := Str(ruleType), "settings" := parsed.value]))))
  }

  /** `pagerules delete-rule`: the rule type names the last path segment; no confirmation. */
  function DeleteRuleCall(domainID: int, pathID: int, ruleType: string): (c: Call)
    ensures c.verb == DELETE && c.body == None
    ensures c.endpoint == Paths(domainID) + "/" + Text.Decimal(pathID) + "/rules/" + ruleType
  {
    Call(DELETE, Paths(domainID) + "/" + Text.Decimal(pathID) + "/rules/" + ruleType, None)
  }

  /** `pagerules delete-path <id>`: sent only with --force or the answer "yes". */
  function DeletePathPlan(domainID: int, pathID: string, force: bool, answer: string): (p: Plan)
    ensures p.Send? <==> force || answer == "yes"
    ensures p.Send? ==> p.call == Call(DELETE, Paths(domainID) + "/" + pathID, None)
    ensures !p.Send? ==> p == Aborted
  {
    ConfirmDelete(force, answer, Paths(domainID) + "/" + pathID)
  }
}
