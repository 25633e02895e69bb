/**
 * What a leaf command does once its flags are read: it either sends one
 * request, refuses before sending anything, or stops because the user did
 * not confirm. Printing and the HTTP exchange itself are not part of this.
 */
module Commands {
  import opened Wrappers
  import opened JsonValue
  import opened Api
  import Text

  /** A request body: a JSON object under construction. */
  type Body = map<string, Json>

  /** One call to the client: verb, endpoint, optional body. */
  datatype Call = Call(verb: Verb, endpoint: string, body: Option<Json>)

  datatype Plan =
    | Send(call: Call)      // the request is issued
    | Reject(reason: string) // an error is returned and nothing is sent
    | Aborted               // the user did not confirm; nothing is sent, no error

  /** The prefix every CDN endpoint of one domain shares. */
  function DomainPath(domainID: int): string
  {
    "/v1/cdn/ng/domains/" + Text.Decimal(domainID)
  }

  /**
   * The confirmation rule of every delete command: without --force the
   * request goes out only when the answer typed is exactly "yes".
   */
  function ConfirmDelete(force: bool, answer: string, endpoint: string): (p: Plan)
    ensures p.Send? <==> force || answer == "yes"
    ensures p.Send? ==> p.call == Call(DELETE, endpoint, None)
    ensures !p.Send? ==> p == Aborted
  {
    if force || answer == "yes" then Send(Call(DELETE, endpoint, None)) else Aborted
  }

  /**
   * Whether JSON text that parsed to `j` decodes into a Go
   * `map[string]interface{}` without error: an object, or `null`, which
   * leaves a nil map that is later sent as `null`.
   */
  predicate ObjectLike(j: Json)
  {
    j.Obj? || j.Null?
  }
}
