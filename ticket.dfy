/**
 * pkg/cli/ticket/ticket.go: the list endpoint with its status filter, the
 * create body, the author and text of a reply, and the subject column.
 */
module Ticket {
  import opened Wrappers
  import opened JsonValue
  import opened Api
  import opened Commands
  import opened Types
  import Domain

  const Tickets := "/v1/support/tickets"
  const StatusQuery := "?status="

  /**
   * `ticket list`: the collection path, extended with "?status=" and the
   * status exactly when a status filter was given; the status is appended
   * as typed, without escaping.
   */
  method ListEndpoint(status: string) returns (endpoint: string)
    ensures status == "" <==> endpoint == Tickets
    ensures |Tickets| <= |endpoint| && endpoint[..|Tickets|] == Tickets
    ensures status != "" ==> endpoint[|Tickets|..] == StatusQuery + status
    ensures status != "" ==> endpoint[|Tickets| + |StatusQuery|..] == status
  {
    endpoint := Tickets;
    if status != "" {
      endpoint := endpoint + StatusQuery + status;
    }
  }

  /** `ticket create`: exactly the four flags, POSTed to the collection. */
  function CreateCall(subject: string, message: string, department: string, priority: string): (c: Call)
    ensures c.verb == POST && c.endpoint == Tickets
    ensures c.body.Some? && c.body.value.Obj?
    ensures c.body.value.fields.Keys == {"subject", "message", "department", "priority"}
    ensures c.body.value.fields["subject"] == Str(subject) && c.body.value.fields["message"] == Str(message)
    ensures c.body.value.fields["department"] == Str(department) && c.body.value.fields["priority"] == Str(priority)
  {
    Call(POST, Tickets, Some(Obj(map[
      "subject" := Str(subject),
      "message" := Str(message),
      "department" := Str(department),
      "priority" := Str(priority)])))
  }

  /** A reply as `ticket show` reads it. */
  datatype Reply = Reply(message: string, content: string, isStaff: NumericBool)

  /** The author type of a reply: "Staff" exactly when IsStaff holds. */
  function AuthorLabel(r: Reply): (author: string)
    ensures author == "Staff" <==> r.isStaff.Bool()
    ensures author == "Customer" <==> !r.isStaff.Bool()
  {
    if r.isStaff.Bool() then "Staff" else "Customer"
  }

  /** The text of a reply: Message, or Content when Message is empty. */
  function ReplyText(r: Reply): (text: string)
    ensures r.message != "" ==> text == r.message
    ensures r.message == "" ==> text == r.content
    ensures text == "" <==> r.message == "" && r.content == ""
  {
    if r.message != "" then r.message else r.content
  }

  /** The width of the SUBJECT column of `ticket list`. */
  const SubjectWidth := 35

  /**
   * The SUBJECT column: the file's own `truncate`, which is the same
   * function as the one of the domain commands, at width 35.
   */
  function SubjectColumn(subject: string): (r: string)
    ensures r == subject <==> |subject| <= SubjectWidth
    ensures |r| <= SubjectWidth
    ensures |subject| > SubjectWidth ==>
      |r| == SubjectWidth && r[..SubjectWidth - 3] == subject[..SubjectWidth - 3] && r[SubjectWidth - 3..] == "..."
  {
    Domain.Truncate(subject, SubjectWidth)
  }
}
