/** pkg/cli/cdn/custompages.go: the error-code whitelist and the page status column. */
module CustomPages {
  import opened Wrappers
  import opened JsonValue
  import opened Api
  import opened Commands
  import Text

  /** The error codes a custom page may be set for or deleted. */
  const ValidCodes: set<int> := {403, 404, 500, 502, 503, 504}

  /** The lookup `validCodes[errorCode]` in a literal map: absent codes read as false. */
  function IsValidCode(code: int): (ok: bool)
    ensures ok <==> code in ValidCodes
  {
    var validCodes := map[403 := true, 404 := true, 500 := true, 502 := true, 503 := true, 504 := true];
    code in validCodes && validCodes[code]
  }

  /** `custom-pages set`: an invalid code fails before anything is sent; else POST {error_code, content}. */
  function SetPlan(domainID: int, code: int, html: string): (p: Plan)
    ensures p.Reject? <==> code !in ValidCodes
    ensures p.Reject? ==> p.reason == "invalid error code: " + Text.Decimal(code) + " (valid: 403, 404, 500, 502, 503, 504)"
    ensures p.Send? <==> code in ValidCodes
    ensures p.Send? ==> p.call == Call(POST, DomainPath(domainID) + "/custom-pages",
      Some(Obj(map["error_code" := IntNum(code), "content" := Str(html)])))
  {
    if !IsValidCode(code) then
      Reject("invalid error code: " + Text.Decimal(code) + " (valid: 403, 404, 500, 502, 503, 504)")
    else
      Send(Call(POST, DomainPath(domainID) + "/custom-pages",
        Some(Obj(map["error_code" := IntNum(code), "content" := Str(html)]))))
  }

  /**
   * `custom-pages delete`: the same whitelist before anything is sent; the
   * DELETE itself names only the domain.
   */
  function DeletePlan(domainID: int, code: int): (p: Plan)
    ensures p.Reject? <==> code !in ValidCodes
    ensures p.Reject? ==> p.reason == "invalid error code: " + Text.Decimal(code)
    ensures p.Send? <==> code in ValidCodes
    ensures p.Send? ==> p.call == Call(DELETE, DomainPath(domainID) + "/custom-pages", None)
  {
    if !IsValidCode(code) then Reject("invalid error code: " + Text.Decimal(code))
    else Send(Call(DELETE, DomainPath(domainID) + "/custom-pages", None))
  }

  /** Deleting the page of one valid code sends the same request as for any other. */
  lemma DeleteIgnoresCode(domainID: int, c1: int, c2: int)
    requires c1 in ValidCodes && c2 in ValidCodes
    ensures DeletePlan(domainID, c1) == DeletePlan(domainID, c2)
  {
  }

  /** Set and delete accept exactly the same codes. */
  lemma SameWhitelist(domainID: int, code: int, html: string)
    ensures SetPlan(domainID, code, html).Send? <==> DeletePlan(domainID, code).Send?
  {
  }

  /** `printPageStatus`: "Custom" for a page with content, "Default" for an empty one. */
  function PageStatus(content: string): (r: string)
    ensures r == "Custom" <==> content != ""
    ensures r == "Default" <==> content == ""
  {
    if content != "" then "Custom" else "Default"
  }
}
