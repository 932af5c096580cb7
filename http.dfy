/**
 * The Graph API as seen by the integration: a call either gets no response at
 * all (a connection error or timeout raised by the HTTP client) or a response
 * with a status code and, when the body is JSON, the few keys the code reads.
 */
module Http {
  import opened Wrappers

  /** The JSON keys read from a reply: `id`, `messages[*].id`, `conversation.id`. */
  datatype Body = Body(id: Option<string>, messageIds: Option<seq<string>>, conversationId: Option<string>)

  datatype Reply = NoResponse | Response(status: int, body: Option<Body>)

  /**
   * The send test shared by the dispatcher and the chatbot: status 200 or 201
   * and a non-empty `messages` list in a JSON body.
   */
  predicate Accepted(r: Reply)
  {
    r.Response? && r.status in {200, 201} && r.body.Some?
    && r.body.value.messageIds.Some? && |r.body.value.messageIds.value| > 0
  }

  function MessageId(r: Reply): string
    requires Accepted(r)
  {
    r.body.value.messageIds.value[0]
  }

  function ConversationId(r: Reply): Option<string>
  {
    if r.Response? && r.body.Some? then r.body.value.conversationId else None
  }

  /** The media or template id a reply carries (`data.get('id')`). */
  function ReturnedId(r: Reply): Option<string>
  {
    if r.Response? && r.body.Some? then r.body.value.id else None
  }

  /** `raise_for_status()` raises for 4xx and 5xx codes. */
  predicate StatusRaises(r: Reply)
  {
    r.Response? && 400 <= r.status < 600
  }

  /** The reply to the k-th call of a run; calls past the given replies get none. */
  function Nth(replies: seq<Reply>, k: nat): Reply
  {
    if k < |replies| then replies[k] else NoResponse
  }
}
