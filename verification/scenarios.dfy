/** The client test suite's situations, replayed against the ChatGpt model. */
module ApiScenarios {
  import opened Wrappers
  import opened Wire
  import opened Exceptions
  import opened Replies
  import opened Api
  import ReplyExamples

  const SessionToken: string := "abf7194fa9c841dfb9e57fd86b00c189"
  const TokenBody: string := "{\"accessToken\": \"access123\"}"

  /** A JSON decoder that knows the bodies these scenarios use. */
  function Loads(s: string): Option<Json>
  {
    if s == TokenBody then Some(Obj(map["accessToken" := Str("access123")]))
    else if s == "{\"foo\": \"bar\"}" then Some(Obj(map["foo" := Str("bar")]))
    else None
  }

  /** A client authenticated with a valid session-check reply. */
  method Authenticated() returns (client: ChatGpt)
    ensures fresh(client) && client.Valid() && client.authFlag
    ensures client.conversationId.None? && client.accessToken == Some("access123")
  {
    client := new ChatGpt(SessionToken, None);
    var _, failure := client.Authenticate(Reply(200, {AuthCookieName}, TokenBody), Loads);
    assert failure.None?;
  }

  method FreshClient()
  {
    var client := new ChatGpt(SessionToken, None);
    assert client.conversationId.None? && !client.authFlag;
    assert client.ConversationHeaders() == Headers(JsonMediaType, "Bearer None", JsonMediaType, Some(DefaultUserAgent));
  }

  method AuthenticationOutcomes()
  {
    var client := new ChatGpt(SessionToken, None);
    var request, failure := client.Authenticate(Reply(403, {}, ""), Loads);
    assert failure == Some(Forbidden) && !client.authFlag;
    request, failure := client.Authenticate(Reply(500, {}, ""), Loads);
    assert failure == Some(StatusCode(500)) && !client.authFlag;
    request, failure := client.Authenticate(Reply(200, {"foo"}, TokenBody), Loads);
    assert failure == Some(InvalidResponse) && !client.authFlag;
    request, failure := client.Authenticate(Reply(200, {AuthCookieName}, "{\"foo\": \"access123\"}"), Loads);
    assert failure == Some(InvalidResponse) && !client.authFlag;
    request, failure := client.Authenticate(Reply(200, {AuthCookieName}, TokenBody), Loads);
    assert failure.None? && client.authFlag;
  }

  /**
   * A reply whose one frame decodes to the valid answer: the response carries its ids and
   * text, the client takes over both ids, and a new conversation then changes the parent id.
   */
  method SendMessageValid(frameText: string, loads: string -> Option<Json>)
    requires IsFrame(frameText) && loads(frameText) == Some(ReplyExamples.ValidFrame())
  {
    var client := Authenticated();
    SingleFrameBody(frameText);
    ReplyExamples.ValidFrameIsRead();
    var request, result := client.SendMessage("foo", Reply(200, {}, "data: " + frameText + "\n"), loads);
    assert result == Success(Response("123", Some("234"), "123", "Message"));
    assert client.conversationId == Some("234") && client.parentMessageId == Received("123");
    var parent := client.parentMessageId;
    client.NewConversation();
    assert client.conversationId.None? && client.parentMessageId != parent;
  }

  method SendMessageFailures()
  {
    var unauthenticated := new ChatGpt(SessionToken, None);
    var request, result := unauthenticated.SendMessage("foo", Reply(200, {}, ""), Loads);
    assert request.None? && result == Failure(Unauthorized);

    var client := Authenticated();
    request, result := client.SendMessage("foo", Reply(401, {}, ""), Loads);
    assert result == Failure(Unauthorized) && client.conversationId.None?;
    request, result := client.SendMessage("foo", Reply(503, {}, ""), Loads);
    assert result == Failure(StatusCode(503));
    ReplyExamples.NoFrameInPlainText();
    request, result := client.SendMessage("foo", Reply(200, {}, "foo"), Loads);
    assert result == Failure(InvalidResponse);
    ReplyExamples.SingleFrame();
    ReplyExamples.ForeignFrameIsRejected();
    request, result := client.SendMessage("foo", Reply(200, {}, "data: {\"foo\": \"bar\"}\n"), Loads);
    assert result == Failure(InvalidResponse) && client.conversationId.None?;
  }
}

/** The earlier client's behaviour on the same kinds of replies. */
module ChatScenarios {
  import opened Wrappers
  import opened Wire
  import opened Exceptions
  import opened Replies
  import opened Chat
  import ApiScenarios
  import ReplyExamples

  /** The first Say authenticates; a failed authentication propagates and nothing is sent. */
  method LazyAuthentication()
  {
    var chat := new Chat(ApiScenarios.SessionToken, Some("old-thread"));
    var request, result := chat.Say("hi", Reply(403, {}, ""), Reply(200, {}, ""), ApiScenarios.Loads);
    assert request.None? && result == Failure(StatusCode(403)) && !chat.isAuth;
    assert chat.conversationId == Some("old-thread");
  }

  /** Once authenticated, 401 is only a status error and a body without frames raises IndexError. */
  method SayFailures()
  {
    var chat := new Chat(ApiScenarios.SessionToken, Some("old-thread"));
    var authReply := Reply(200, {AuthCookieName}, ApiScenarios.TokenBody);
    var request, result := chat.Say("hi", authReply, Reply(401, {}, ""), ApiScenarios.Loads);
    assert result == Failure(StatusCode(401)) && chat.isAuth;
    assert request.Some? && request.value.payload.conversationId.None?;
    ReplyExamples.NoFrameInPlainText();
    request, result := chat.Say("hi", authReply, Reply(200, {}, "foo"), ApiScenarios.Loads);
    assert result == Failure(IndexError) && chat.conversationId == Some("old-thread");
    chat.NewConversation();
    assert chat.conversationId.None? && chat.isAuth;
  }
}
