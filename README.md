# mizban CLI core, modelled in Dafny

This project models the core of the `mizban` command-line client for the
MizbanCloud API (written in Go). It covers three layers:

- **Value adapters** (`pkg/types/types.go`). `NumericBool`, `FlexibleString`,
  `NullableInt` and `NullableString` accept the loose JSON shapes the API
  sends. Each comes with its decoder and its encoder.
- **HTTP client** (`pkg/api/client.go`). It builds one JSON request against
  `BaseURL + endpoint`, sets the JSON headers and the optional bearer token,
  and classifies the answer:
  - 401 and 429 are decided on the status alone;
  - any other answer must be an envelope;
  - an envelope with `success = false` becomes an `API error: <message>`.
- **Command rules** (`pkg/cli/...`). These are the small decisions inside the
  CDN, profile and ticket commands:
  - which keys a request body carries;
  - which input is refused before anything is sent;
  - which endpoint is addressed;
  - how a table column is derived;
  - when a delete goes ahead without `--force`.

JSON is an abstract datatype (`JsonValue.Json`). Request bodies are
`map<string, Json>`. The network is a parameter: a `transport` function maps
the request to the exchange that came back. A command's outcome is a
`Commands.Plan`: either one request is sent, or the command refuses with an
error, or the user did not confirm.

Modules and files:

| file | module | source |
|---|---|---|
| wrappers.dfy | Wrappers | Option and Result |
| json.dfy | JsonValue | the JSON values encoding/json works with |
| text.dfy | Text | decimal rendering and ASCII lower-casing |
| types.dfy | Types | pkg/types/types.go |
| client.dfy | Api | pkg/api/client.go |
| commands.dfy | Commands | the outcome of a command, the delete confirmation |
| domain.dfy | Domain | pkg/cli/cdn/domain.go |
| dns.dfy | Dns | pkg/cli/cdn/dns.go |
| cache.dfy | Cache | pkg/cli/cdn/cache.go |
| custompages.dfy | CustomPages | pkg/cli/cdn/custompages.go |
| cluster.dfy | Cluster | pkg/cli/cdn/cluster.go |
| ratelimit.dfy | RateLimit | pkg/cli/cdn/ratelimit.go |
| logforwarder.dfy | LogForwarder | pkg/cli/cdn/logforwarder.go |
| profile.dfy | Profile | pkg/cli/auth/profile.go |
| ticket.dfy | Ticket | pkg/cli/ticket/ticket.go |
| pagerules.dfy | PageRules | pkg/cli/cdn/pagerules.go |

The model takes the form of the code it follows:

- Where the Go code builds a map or a string step by step, the model has a
  method that does the same. Examples: the request headers, the DNS, cluster,
  log-forwarder and profile bodies, the purge body, the monitoring label, the
  ticket list endpoint, and the `formatBytes` loop.
- `NullableInt` and `NullableString` are classes whose `UnmarshalJSON`
  updates the receiver's fields. On `null` they keep `Value`.
- `NumericBool` and `FlexibleString` overwrite the whole receiver on every
  path, so they are functions from the JSON value to the new value.
- Pure conditionals are functions.

## Model

| member | source | states |
|---|---|---|
| Text.NatDecimalValue | pkg/cli/cdn/cluster.go:72 | the digits written for an ID by `%d` denote that ID |
| Text.DecimalValue | pkg/cli/cdn/cluster.go:72 | `%d` of a non-negative integer is its digits; of a negative one, a minus sign followed by the digits of its magnitude |
| Types.ParseBool | pkg/types/types.go:24-26 | the string is read as true exactly for the six true spellings of `strconv.ParseBool`, as false exactly for the six false ones, and is an error otherwise |
| Types.DecodeNumericBool | pkg/types/types.go:11-31 | decoding never fails (a number literal beyond float64 range is the exception, see "## Left out"); a JSON bool is kept; any number is true iff non-zero (integer and fraction literals alike, since every number arrives as float64); a string is true iff it is a true spelling; null, arrays and objects give false |
| Types.NumericBool.Bool | pkg/types/types.go:37-39 | the plain boolean, which written as a JSON bool decodes back to the same NumericBool |
| Types.EncodeNumericBool | pkg/types/types.go:33-35 | the encoding is a JSON bool and decodes back to the same value |
| Types.DecodeFlexibleString | pkg/types/types.go:45-67 | decoding never fails; a string is kept; an array of strings gives its first element, or "" when empty; any other shape gives "" |
| Types.FlexibleString.String | pkg/types/types.go:73-75 | the plain string, which written as a JSON string decodes back to the same FlexibleString |
| Types.EncodeFlexibleString | pkg/types/types.go:69-71 | the encoding is a JSON string and decodes back to the same value |
| Types.NullableInt.UnmarshalJSON | pkg/types/types.go:83-90 | Valid becomes true iff the input is not null; an in-range integer sets Value with no error; anything else leaves Value as it was, and every input except null and an in-range integer is an error |
| Types.NullableInt.MarshalJSON | pkg/types/types.go:92-97 | the encoding is null iff not Valid, and otherwise the integer Value |
| Types.NullableIntRoundTrip | pkg/types/types.go:83-97 | encoding one value and decoding it into another never errors; it carries Valid over, carries Value over when Valid, and leaves the target's Value alone when not Valid |
| Types.NullableString.UnmarshalJSON | pkg/types/types.go:105-112 | Valid becomes true iff the input is not null; a string sets Value; any other input leaves Value as it was, and every input except null and a string is an error |
| Types.NullableString.MarshalJSON | pkg/types/types.go:114-119 | the encoding is null iff not Valid, and otherwise the string Value |
| Types.NullableStringRoundTrip | pkg/types/types.go:105-119 | the NullableString round trip: no error, Valid carried over, Value carried over when Valid |
| Api.ErrorText | pkg/api/client.go:88-90 | the error for an envelope with success = false is "API error: " followed by exactly the envelope's message |
| Api.NewRequest | pkg/api/client.go:41-62 | building fails with the build error ("error creating request") iff the URL is rejected; otherwise the URL is exactly base URL + endpoint; the body is the one given; Content-Type and Accept are always application/json; Authorization is present iff the token is non-empty, and then it is "Bearer " + token |
| Api.Classify | pkg/api/client.go:64-92 | a failed exchange fails; 401 gives the unauthorized error and 429 the rate-limited error, whatever the body; otherwise an unparseable body is a parse error, success = false an API error carrying the message, and a success envelope is returned unchanged |
| Api.Request | pkg/api/client.go:40-93 | nothing is sent and the build error is returned iff the URL is rejected; otherwise the request sent has NewRequest's URL, body and headers (JSON Content-Type and Accept, Authorization iff a token, as "Bearer " + token), and the result is the classification of what the transport returns for it |
| Api.Get | pkg/api/client.go:95-97 | a GET with no body to base URL + endpoint, with the same headers and build-error rule as Request |
| Api.Post | pkg/api/client.go:99-101 | a POST carrying exactly the given body, with the same headers and build-error rule as Request |
| Api.Put | pkg/api/client.go:103-105 | a PUT carrying exactly the given body, with the same headers and build-error rule as Request |
| Api.Delete | pkg/api/client.go:107-109 | a DELETE with no body, with the same headers and build-error rule as Request (so no Authorization header without a token) |
| Api.ParseData | pkg/api/client.go:111-117 | succeeds iff the payload is present and decodes, and then returns the decoded value; otherwise it is the data error |
| Api.StatusBeforeBody | pkg/api/client.go:75-81 | for 401 and 429 the body makes no difference, even a success envelope, and the result is an error |
| Api.OtherStatusesNotInspected | pkg/api/client.go:83-92 | any two statuses other than 401 and 429 are classified alike for the same body (500 is not treated as an error) |
| Commands.ConfirmDelete | pkg/cli/cdn/cluster.go:305-316 | a delete is sent iff --force or the answer is exactly "yes"; it is a DELETE of the endpoint with no body; otherwise the command aborts without error |
| Domain.Truncate | pkg/cli/cdn/domain.go:284-289 | the string is returned unchanged iff it fits; a longer one becomes exactly max long, keeps its first max-3 characters and ends in "..."; the result never exceeds max |
| Domain.FormatBytes | pkg/cli/cdn/domain.go:291-302 | the plain form is used iff bytes < 1024 (negatives included); otherwise div = 1024^(exp+1), div <= bytes < 1024·div (the shown quotient is in [1, 1024)), exp < 6 for every int64, and the unit is "KMGTPE"[exp] |
| Domain.ExponentFitsUnits | pkg/cli/cdn/domain.go:297-301 | a power 1024^(e+1) that fits in an int64 has e < 6, so the index into "KMGTPE" is in range |
| Domain.DisplayName | pkg/cli/cdn/domain.go:100-103 | the name is shown when non-empty, otherwise the bare domain |
| Domain.WafLabel | pkg/cli/cdn/domain.go:96-99 | "Yes" iff the WAF flag holds, otherwise "No" |
| Domain.WafColumnFromWire | pkg/cli/cdn/domain.go:96-99 | read from the wire, the WAF column says "Yes" exactly for true, a non-zero number or a true spelling of ParseBool |
| Domain.DeletePlan | pkg/cli/cdn/domain.go:221-233 | the DELETE of /v1/cdn/ng/domains/<id> is sent iff --force or the answer "yes" |
| Dns.AddBody | pkg/cli/cdn/dns.go:224-237 | the body has the six record keys always, "priority" iff priority > 0 and "port" iff port > 0, with the flag values |
| Dns.AddCall | pkg/cli/cdn/dns.go:224-239 | the add body is POSTed to the domain's /dns collection |
| Dns.UpdateBody | pkg/cli/cdn/dns.go:288-302 | the add body's keys under the same optional-key rule, plus "record_id" |
| Dns.UpdateCall | pkg/cli/cdn/dns.go:288-304 | the update body is PUT to /dns/<record id> |
| Dns.ProxiedLabel | pkg/cli/cdn/dns.go:80-83 | "Yes" iff the proxy state is exactly "ACTIVE", otherwise "No" |
| Dns.ProtocolLabel | pkg/cli/cdn/dns.go:85-91 | "-" stands for "" and "DEFAULT", any other protocol is shown as it is, and ":<port>" follows iff port > 0, after "-" too |
| Dns.DefaultProtocolsAlike | pkg/cli/cdn/dns.go:86-88 | an empty protocol and "DEFAULT" give the same label for every port |
| Dns.DnssecCall | pkg/cli/cdn/dns.go:659-661 | a POST to the domain's /dns/dnssec with body {enabled: flag} |
| Dns.DnssecSwitch | pkg/cli/cdn/dns.go:695-697 | enable and disable reach the same endpoint with different bodies |
| Cache.PurgePlan | pkg/cli/cdn/cache.go:209-221 | the command refuses iff neither --all nor a URL was given; otherwise the body is domain_id plus purge_all = true with --all (even with URLs) or the URL list without it, POSTed to /cache/edge/purge-cache |
| Cache.PurgeMessage | pkg/cli/cdn/cache.go:226-230 | the message counts exactly the URLs given when not purging all |
| CustomPages.IsValidCode | pkg/cli/cdn/custompages.go:99-100 | the literal-map lookup accepts exactly 403, 404, 500, 502, 503 and 504 |
| CustomPages.SetPlan | pkg/cli/cdn/custompages.go:99-108 | an invalid code is refused with its message before any request; a valid one POSTs exactly {error_code, content} |
| CustomPages.DeletePlan | pkg/cli/cdn/custompages.go:136-142 | the same whitelist, with its own message; the DELETE names only the domain |
| CustomPages.DeleteIgnoresCode | pkg/cli/cdn/custompages.go:142 | every valid code produces the same DELETE request |
| CustomPages.SameWhitelist | pkg/cli/cdn/custompages.go:136-137 | set and delete accept exactly the same codes |
| CustomPages.PageStatus | pkg/cli/cdn/custompages.go:80-86 | "Custom" iff the content is non-empty, otherwise "Default" |
| Cluster.PoolBody | pkg/cli/cdn/cluster.go:206-215 | five keys always, "hash_key" iff the hash key is non-empty, with the flag values |
| Cluster.AddPoolCall | pkg/cli/cdn/cluster.go:206-217 | a POST to /cluster whose body has exactly the five pool keys plus "hash_key" iff a hash key is given, each holding its flag's value |
| Cluster.UpdatePoolCall | pkg/cli/cdn/cluster.go:261-272 | a PUT to /cluster/<id> with the same exact keys and values as the add body |
| Cluster.ServerBody | pkg/cli/cdn/cluster.go:359-368 | five keys always, "host_header" iff the host header is non-empty |
| Cluster.ServerAddCall | pkg/cli/cdn/cluster.go:359-370 | a POST to /cluster/<id>/servers whose body has exactly the five server keys plus "host_header" iff a host header is given, each holding its flag's value |
| Cluster.MonitoringLabel | pkg/cli/cdn/cluster.go:98-104 | "off" for an empty protocol; otherwise the lower-cased protocol, with ":<port>" iff port > 0; the label is "off" iff the protocol is empty or is "off" in any case with no positive port |
| Cluster.ServerStatus | pkg/cli/cdn/cluster.go:116-119 | "backup" iff priority is -1, otherwise "active" |
| Cluster.DeletePlan | pkg/cli/cdn/cluster.go:305-316 | the DELETE of /cluster/<id> is sent iff --force or the answer "yes" |
| Cluster.ServerDeletePlan | pkg/cli/cdn/cluster.go:404-415 | the DELETE of /cluster/<id>/servers/<id> is sent iff --force or the answer "yes" |
| RateLimit.IntField | pkg/cli/cdn/ratelimit.go:16-18 | an int field decodes iff it is absent, null or an in-range integer; absent and null give 0 |
| RateLimit.StringField | pkg/cli/cdn/ratelimit.go:22-23 | a string field decodes iff it is absent, null or a string; absent and null give "" |
| RateLimit.ListField | pkg/cli/cdn/ratelimit.go:19-21 | a list field decodes iff it is absent, null or an array of strings; it is nil iff absent or null, and otherwise holds the elements in order |
| RateLimit.DecodeSettings | pkg/cli/cdn/ratelimit.go:14-24 | null gives the zero settings; a non-object fails; an object decodes iff every field decodes, and then limit, block and the three lists are the decoded field values |
| RateLimit.ListJson | pkg/cli/cdn/ratelimit.go:233-236 | a nil list is sent as null, any other as the array of its strings |
| RateLimit.SetBody | pkg/cli/cdn/ratelimit.go:119-126 | exactly the six keys; enabled goes under mode, request count under request_count, block time under block_time, and the three lists are sent unchanged |
| RateLimit.SetCall | pkg/cli/cdn/ratelimit.go:119-128 | the set body is POSTed to /ratelimit |
| RateLimit.EnableBody | pkg/cli/cdn/ratelimit.go:179-186 | the set body with mode true and all three lists empty |
| RateLimit.DisableBody | pkg/cli/cdn/ratelimit.go:230-237 | mode false, and limit, block and the three lists copied from the fetched settings; with non-nil lists it is the set body for those values |
| RateLimit.ListRoundTrip | pkg/cli/cdn/ratelimit.go:233-236 | a list sent back decodes to the same list, nil included |
| RateLimit.DisableKeepsSettings | pkg/cli/cdn/ratelimit.go:220-237 | for any settings decoded from the GET, the disable body's fields decode back to the same limit, block and lists, and only the mode changes |
| RateLimit.DisablePlan | pkg/cli/cdn/ratelimit.go:220-239 | the POST is sent iff the GET succeeded and its data decoded, and it carries the disable body of the decoded settings |
| RateLimit.StatusWord | pkg/cli/cdn/ratelimit.go:133-136 | "disabled" iff not enabled |
| LogForwarder.AddPlan | pkg/cli/cdn/logforwarder.go:105-121 | the command refuses iff a non-empty config parses into neither an object nor null (null is sent as null); otherwise it POSTs name, type, endpoint and enabled, plus "config" iff the config is non-empty, holding the parsed value |
| LogForwarder.UpdateBody | pkg/cli/cdn/logforwarder.go:164-171 | "name" iff the name is non-empty, "endpoint" iff the endpoint is non-empty, "enabled" always, and nothing else |
| LogForwarder.UpdateCall | pkg/cli/cdn/logforwarder.go:164-174 | a PUT to /log-forwarders/<id> whose body has "name" iff a name is given, "endpoint" iff an endpoint is given, "enabled" always and nothing else, each holding its flag's value |
| LogForwarder.DeletePlan | pkg/cli/cdn/logforwarder.go:204-215 | the DELETE is sent iff --force or the answer "yes" |
| Profile.UpdatePlan | pkg/cli/auth/profile.go:83-95 | "name" iff the name is non-empty and "phone_number" iff the phone is non-empty; an empty body is refused with "no fields to update" and nothing is sent; otherwise it is PUT to /v1/auth/profile |
| Profile.ApiKeyCreatePlan | pkg/cli/auth/profile.go:168-173 | an empty name is refused before any request; otherwise {name} is POSTed to /v1/auth/api-token |
| Profile.MaskTokenAsWritten | pkg/cli/auth/profile.go:153 | the token column panics iff the token is shorter than 20 characters; otherwise it is the first 20 and "..." |
| Profile.ShortTokenPanics | pkg/cli/auth/profile.go:153 | a concrete key whose 9-character token makes the column panic |
| Profile.TokenColumnAsWritten | pkg/cli/auth/profile.go:152-154 | the list fails iff some token is shorter than 20 characters |
| Profile.MaskToken | pkg/cli/auth/profile.go:153 | corrected column: never fails, shows at most the first 20 characters and then "...", and equals the as-written column whenever that does not panic |
| Profile.TokenColumn | pkg/cli/auth/profile.go:152-154 | corrected list: one masked row per key, equal to the as-written list whenever that one does not panic |
| Ticket.ListEndpoint | pkg/cli/ticket/ticket.go:66-69 | the endpoint is /v1/support/tickets exactly when no status is given; otherwise "?status=" + status is appended, and the status can be read back from the end |
| Ticket.CreateCall | pkg/cli/ticket/ticket.go:118-125 | the body is exactly {subject, message, department, priority}, POSTed to /v1/support/tickets |
| Ticket.AuthorLabel | pkg/cli/ticket/ticket.go:194-197 | "Staff" iff IsStaff, otherwise "Customer" |
| Ticket.ReplyText | pkg/cli/ticket/ticket.go:198-201 | Message when non-empty, otherwise Content |
| Ticket.SubjectColumn | pkg/cli/ticket/ticket.go:293-298 | the file's copy of `truncate` at width 35: identity iff the subject fits, otherwise exactly 35 long with the first 32 characters kept and "..." at the end |
| PageRules.ListEndpoint | pkg/cli/cdn/pagerules.go:60-63 | /paths iff the rule type is "" or "all", otherwise /paths/<type> |
| PageRules.FilteredEndpointsDistinct | pkg/cli/cdn/pagerules.go:61-63 | two different filter types never select the same endpoint |
| PageRules.SetRulePlan | pkg/cli/cdn/pagerules.go:204-213 | the command refuses iff the settings parse into neither an object nor null (null is sent as null); otherwise it POSTs exactly {type, settings} to /paths/<id>/rules |
| PageRules.DeleteRuleCall | pkg/cli/cdn/pagerules.go:244 | a DELETE of /paths/<path id>/rules/<type> with no body |
| PageRules.DeletePathPlan | pkg/cli/cdn/pagerules.go:158-169 | the DELETE of /paths/<id> is sent iff --force or the answer "yes" |

## Left out

- Types.DecodeNumericBool: a number literal beyond float64 range (such as 1e400) makes Go's decoding into `interface{}` fail, so NumericBool fails too, and with it any record that contains one (the rate-limit settings' "enabled"). The model has no float64 range, so it never takes that error path.
- Whether `http.NewRequest` accepts a URL is a parameter (`urlValid`) of the request methods, not a model of Go's URL parser.
- The network: the 30-second timeout, connection errors and reading the body. The transport is a parameter. A failed read is folded into the same failure as a failed connection, which is reported as "error making request".
- Marshalling the request body is not modelled. It cannot fail for the maps the commands build.
- The detail that `%w` adds to Go error messages after "error parsing response", "invalid config JSON", "invalid settings JSON" and "failed to parse settings" is left out.
- encoding/json's text parser is not modelled. Bodies are abstract JSON values; a command that parses a flag takes the parser as a `parse` parameter.
- Go matches JSON object keys to struct fields without regard to case. DecodeSettings matches them exactly.
- The float64 conversions are not modelled. NumericBool's zero test on float64 is done on exact numbers. Numbers inside a parsed config or settings object are kept as exact JSON values, not rounded to float64.
- Go `int` values taken from flags (IDs, ports, counts, TTLs) are unbounded integers here. Integers decoded from JSON are bounded to int64: `NullableInt.Value` is an int64, and NullableInt.UnmarshalJSON and RateLimit.IntField reject a literal outside that range. `formatBytes` also works on int64.
- Domain.FormatBytes does not model the `%.2f` formatting: it yields the divisor, exponent and unit.
- Cluster.MonitoringLabel: `strings.ToLower` is modelled on ASCII letters only.
- Domain.Truncate, Profile.MaskTokenAsWritten and Profile.MaskToken count lengths in characters, while Go's `len` and slicing count bytes. For ASCII text they agree. For other text they differ: a token of 10 two-byte characters is 20 bytes, so Go prints it without panicking, but MaskTokenAsWritten reports a panic; likewise `truncate`'s fits test and its cut point differ, and Go can split a multi-byte character.
- Printing, table padding, `--json` output and the cobra flag wiring are left out. Flags are parameters.
- The stdin read of the confirmation is left out. Only the typed answer is a parameter.
- pkg/config/config.go is not part of this model. The client reads a plain {token, base URL} record instead.
- pkg/cli/auth/login.go is not part of this model.
- The commands that only send fixed literal bodies and print are not modelled: ssl.go, waf.go, ddos.go, both firewall.go files, and the cloud commands. The cloud server command's copy of `truncate` is the same function as Domain.Truncate.

## Findings

| source | as written | input that shows it | evidently intended | confidence | as-written member | corrected member |
|---|---|---|---|---|---|---|
| pkg/cli/auth/profile.go:153 | `api-keys list` prints `key.Token[:20]+"..."`, which panics with "slice bounds out of range" for any token shorter than 20 bytes | a key whose token is "mzb_short" (9 characters) | show at most the first 20 characters followed by "..." | not executed | Profile.MaskTokenAsWritten | Profile.MaskToken |
