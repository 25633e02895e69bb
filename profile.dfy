/**
 * pkg/cli/auth/profile.go: the profile-update body and its refusal when
 * empty, the API-key name check, and the token column of `api-keys list`.
 */
module Profile {
  import opened Wrappers
  import opened JsonValue
  import opened Api
  import opened Commands

  const ProfileEndpoint := "/v1/auth/profile"
  const ApiTokenEndpoint := "/v1/auth/api-token"
  const NoFields := "no fields to update"
  const NameRequired := "name is required"

  /**
   * `profile update`: the body starts empty and gains "name" and
   * "phone_number" only for the flags given; an empty body is refused with
   * "no fields to update" and nothing is sent.
   */
  method UpdatePlan(name: string, phone: string) returns (p: Plan)
    ensures !p.Aborted?
    ensures p.Reject? <==> name == "" && phone == ""
    ensures p.Reject? ==> p.reason == NoFields
    ensures p.Send? ==>
      p.call.verb == PUT && p.call.endpoint == ProfileEndpoint &&
      p.call.body.Some? && p.call.body.value.Obj? &&
      var body := p.call.body.value.fields;
      |body| > 0 &&
      ("name" in body <==> name != "") &&
      ("phone_number" in body <==> phone != "") &&
      body.Keys <= {"name", "phone_number"} &&
      ("name" in body ==> body["name"] == Str(name)) &&
      ("phone_number" in body ==> body["phone_number"] == Str(phone))
  {
    var body: Body := map[];
    if name != "" {
      body := body["name" := Str(name)];
    }
    if phone != "" {
      body := body["phone_number" := Str(phone)];
    }
    if |body| == 0 {
      return Reject(NoFields);
    }
    p := Send(Call(PUT, ProfileEndpoint, Some(Obj(body))));
  }

  /** `api-keys create`: an empty name is refused before any request. */
  function ApiKeyCreatePlan(name: string): (p: Plan)
    ensures p.Reject? <==> name == ""
    ensures p.Reject? ==> p.reason == NameRequired
    ensures p.Send? ==> p.call == Call(POST, ApiTokenEndpoint, Some(Obj(map["name" := Str(name)])))
    ensures !p.Aborted?
  {
    if name == "" then Reject(NameRequired)
    else Send(Call(POST, ApiTokenEndpoint, Some(Obj(map["name" := Str(name)]))))
  }

  // ---------------------------------------------------------------- token column

  /** How many characters of a token `api-keys list` shows before "...". */
  const ShownPrefix := 20

  /** A run-time panic of the Go program (here: slice bounds out of range). */
  datatype Panic = SliceOutOfRange

  /**
   * The token column as written: the first twenty characters and "...".
   * The slice expression panics when the token is shorter than twenty.
   */
  function MaskTokenAsWritten(token: string): (r: Result<string, Panic>)
    ensures r.Failure? <==> |token| < ShownPrefix
    ensures r.Success? ==> r.value == token[..ShownPrefix] + "..."
  {
    if |token| < ShownPrefix then Failure(SliceOutOfRange)
    else Success(token[..ShownPrefix] + "...")
  }

  /** Any token shorter than twenty characters crashes `api-keys list`. */
  lemma ShortTokenPanics()
    ensures MaskTokenAsWritten("mzb_short").Failure?
  {
  }

  /**
   * The token column as evidently intended: at most the first twenty
   * characters, then "...". It never fails, never shows more than twenty
   * characters of the token, and equals the as-written column whenever that
   * one does not panic.
   */
  function MaskToken(token: string): (r: string)
    ensures 3 <= |r| <= ShownPrefix + 3
    ensures r[|r| - 3..] == "..."
    ensures var shown := r[..|r| - 3]; |shown| == Min(|token|, ShownPrefix) && shown == token[..|shown|]
    ensures MaskTokenAsWritten(token).Success? ==> r == MaskTokenAsWritten(token).value
  {
    token[..Min(|token|, ShownPrefix)] + "..."
  }

  function Min(a: int, b: int): int
  {
    if a <= b then a else b
  }

  /**
   * The whole list as written: one row per key, and the first short token
   * ends the command with a panic. With MaskToken every row is produced.
   */
  function TokenColumnAsWritten(tokens: seq<string>): (r: Result<seq<string>, Panic>)
    ensures r.Failure? <==> exists k :: 0 <= k < |tokens| && |tokens[k]| < ShownPrefix
    ensures r.Success? ==> |r.value| == |tokens|
    ensures r.Success? ==> forall k :: 0 <= k < |tokens| ==> r.value[k] == MaskToken(tokens[k])
  {
    if |tokens| == 0 then Success([])
    else
      match MaskTokenAsWritten(tokens[0])
      case Failure(e) => Failure(e)
      case Success(row) =>
        match TokenColumnAsWritten(tokens[1..])
        case Failure(e) =>
          assert exists k :: 0 <= k < |tokens| && |tokens[k]| < ShownPrefix by {
            var k :| 0 <= k < |tokens[1..]| && |tokens[1..][k]| < ShownPrefix;
            assert |tokens[k + 1]| < ShownPrefix;
          }
          Failure(e)
        case Success(rows) => Success([row] + rows)
  }

  /** The token column as intended: every key gets a row. */
  function TokenColumn(tokens: seq<string>): (rows: seq<string>)
    ensures |rows| == |tokens|
    ensures forall k :: 0 <= k < |tokens| ==> rows[k] == MaskToken(tokens[k])
    ensures TokenColumnAsWritten(tokens).Success? ==> rows == TokenColumnAsWritten(tokens).value
  {
    seq(|tokens|, k requires 0 <= k < |tokens| => MaskToken(tokens[k]))
  }
}
