/**
 * The body of a conversation request, as a structured record (its JSON text is not modelled).
 */
module Payloads {
  import opened Wrappers
  import opened Wire

  const NextAction: string := "next"
  const UserRole: string := "user"
  const TextContentType: string := "text"
  const ModelName: string := "text-davinci-002-render"

  datatype Content = Content(contentType: string, parts: seq<string>)

  datatype Message = Message(id: MessageId, role: string, content: Content)

  datatype Payload = Payload(
    action: string,
    messages: seq<Message>,
    conversationId: Option<string>,
    parentMessageId: Option<MessageId>,
    model: string)

  /** The four values a request is built from. */
  datatype Inputs = Inputs(message: string, id: MessageId, conversationId: Option<string>, parentMessageId: Option<MessageId>)

  /** One user turn: the message text as the single text part, with the thread ids passed through. */
  function SendMessage(message: string, id: MessageId, convId: Option<string>, parentMsgId: Option<MessageId>): (p: Payload)
    ensures p.action == NextAction && p.model == ModelName
    ensures |p.messages| == 1 && p.messages[0].id == id && p.messages[0].role == UserRole
    ensures p.messages[0].content == Content(TextContentType, [message])
    ensures p.conversationId == convId && p.parentMessageId == parentMsgId
  {
    Payload(NextAction, [Message(id, UserRole, Content(TextContentType, [message]))], convId, parentMsgId, ModelName)
  }

  /** Reads the inputs back from a payload of the shape SendMessage builds; None for any other payload. */
  function ReadInputs(p: Payload): (r: Option<Inputs>)
    ensures r.Some? ==> SendMessage(r.value.message, r.value.id, r.value.conversationId, r.value.parentMessageId) == p
  {
    if p.action == NextAction && p.model == ModelName && |p.messages| == 1
       && p.messages[0].role == UserRole && p.messages[0].content.contentType == TextContentType
       && |p.messages[0].content.parts| == 1
    then
      var m := p.messages[0];
      assert m.content.parts == [m.content.parts[0]];
      assert m == Message(m.id, UserRole, Content(TextContentType, [m.content.parts[0]]));
      assert p.messages == [m];
      Some(Inputs(m.content.parts[0], m.id, p.conversationId, p.parentMessageId))
    else None
  }

  /** Nothing is lost: every payload SendMessage builds gives back exactly its inputs. */
  lemma ReadInputsOfSendMessage(message: string, id: MessageId, convId: Option<string>, parentMsgId: Option<MessageId>)
    ensures ReadInputs(SendMessage(message, id, convId, parentMsgId)) == Some(Inputs(message, id, convId, parentMsgId))
  {
  }
}
