/**
 * The earlier client `Chat`: it authenticates lazily inside `Say`, never sends the stored
 * conversation id, has no 401/403 special cases, and takes the last frame by indexing,
 * so a reply without frames raises IndexError.
 */
module Chat {
  import opened Wrappers
  import opened Wire
  import opened Exceptions
  import opened Replies
  import Payloads

  /** The answer to one message. */
  datatype ChatResponse = ChatResponse(id: string, conversationId: Option<string>, content: string)

  /** The POST issued by `say` (no User-Agent header). */
  datatype SayRequest = SayRequest(url: string, headers: Headers, payload: Payloads.Payload)

  /**
   * The decision `_auth` takes on the session-check reply: any non-200 (403 included) is a
   * status error, then the missing auth cookie, then an undecodable body or missing
   * `accessToken`. Success carries the token to store.
   */
  function AuthOutcome(reply: Reply, loads: string -> Option<Json>): (r: Result<Option<string>, Error>)
    ensures r.Failure? && r.error.StatusCode? <==> reply.status != 200
    ensures r.Failure? && r.error.StatusCode? ==> r.error.status == reply.status
    ensures r == Failure(InvalidResponse) <==>
      reply.status == 200 &&
      (AuthCookieName !in reply.cookies || loads(reply.body).None? || AccessToken(loads(reply.body).value).None?)
    ensures r.Success? <==>
      reply.status == 200 && AuthCookieName in reply.cookies &&
      loads(reply.body).Some? && AccessToken(loads(reply.body).value).Some?
    ensures r.Success? ==> Some(r.value) == AccessToken(loads(reply.body).value)
    ensures r.Failure? ==> r.error in {StatusCode(reply.status), InvalidResponse}
  {
    if reply.status != 200 then Failure(StatusCode(reply.status))
    else if AuthCookieName !in reply.cookies then Failure(InvalidResponse)
    else match loads(reply.body)
      case None => Failure(InvalidResponse)
      case Some(d) =>
        match AccessToken(d)
        case None => Failure(InvalidResponse)
        case Some(token) => Success(token)
  }

  /**
   * `findall(...)[-1]` followed by the emptiness check written after it: no frame raises
   * IndexError; an empty frame would be an invalid response.
   */
  function LastFrameOrRaise(body: string): (r: Result<string, Error>)
    ensures r.Failure? ==> r.error in {IndexError, InvalidResponse}
    ensures r == Failure(IndexError) <==> forall p: nat :: !MatchAt(body, p)
    ensures r.Success? ==> Some(r.value) == LastFrame(body)
  {
    var frames := FindAll(body, 0);
    FindAllEmpty(body, 0);
    if frames == [] then Failure(IndexError)
    else
      var frame := frames[|frames| - 1];
      if frame == "" then Failure(InvalidResponse) else Success(frame)
  }

  /** The emptiness check after `[-1]` never fires: every frame is at least `{x}`. */
  lemma EmptyFrameCheckNeverFires(body: string)
    ensures LastFrameOrRaise(body) != Failure(InvalidResponse)
    ensures LastFrameOrRaise(body).Success? <==> LastFrame(body).Some?
  {
    var frames := FindAll(body, 0);
    if frames != [] {
      assert IsFrame(frames[|frames| - 1]);
    }
  }

  /**
   * What `say` makes of the conversation reply: every non-200 (401 included) is a status
   * error; no frame raises IndexError; a frame that does not decode to a complete answer is
   * an invalid response.
   */
  function SayOutcome(reply: Reply, loads: string -> Option<Json>): (r: Result<Completion, Error>)
    ensures r.Failure? && r.error.StatusCode? <==> reply.status != 200
    ensures r.Failure? && r.error.StatusCode? ==> r.error.status == reply.status
    ensures r == Failure(IndexError) <==> reply.status == 200 && LastFrame(reply.body).None?
    ensures r.Success? <==>
      reply.status == 200 && LastFrame(reply.body).Some? &&
      loads(LastFrame(reply.body).value).Some? &&
      ReadCompletion(loads(LastFrame(reply.body).value).value).Some?
    ensures r.Success? ==> Some(r.value) == ReadCompletion(loads(LastFrame(reply.body).value).value)
    ensures r.Failure? ==> r.error in {StatusCode(reply.status), IndexError, InvalidResponse}
  {
    EmptyFrameCheckNeverFires(reply.body);
    if reply.status != 200 then Failure(StatusCode(reply.status))
    else match LastFrameOrRaise(reply.body)
      case Failure(e) => Failure(e)
      case Success(frame) =>
        match loads(frame)
        case None => Failure(InvalidResponse)
        case Some(d) =>
          match ReadCompletion(d)
          case None => Failure(InvalidResponse)
          case Some(c) => Success(c)
  }

  class Chat {
    const sessionToken: string
    var accessToken: Option<string>
    var conversationId: Option<string>
    var isAuth: bool
    /** How many uuids this client has drawn; the next one is Generated(issued). */
    var issued: nat

    /** No token is held before authentication. */
    ghost predicate Valid()
      reads this
    {
      !isAuth ==> accessToken.None?
    }

    constructor (sessionToken: string, conversationId: Option<string>)
      ensures Valid()
      ensures this.sessionToken == sessionToken && this.conversationId == conversationId
      ensures accessToken.None? && !isAuth && issued == 0
    {
      this.sessionToken := sessionToken;
      accessToken := None;
      this.conversationId := conversationId;
      isAuth := false;
      issued := 0;
    }

    /** Draws a fresh uuid. */
    method GenerateUuid() returns (id: MessageId)
      modifies this`issued
      ensures id == Generated(old(issued)) && issued == old(issued) + 1
    {
      id := Generated(issued);
      issued := issued + 1;
    }

    /** `_auth`: only full success stores the token and sets the flag. */
    method Auth(reply: Reply, loads: string -> Option<Json>) returns (failure: Option<Error>)
      requires Valid()
      modifies this
      ensures Valid()
      ensures failure.None? <==> AuthOutcome(reply, loads).Success?
      ensures failure.Some? ==> failure.value == AuthOutcome(reply, loads).error
      ensures failure.None? ==> isAuth && accessToken == AuthOutcome(reply, loads).value
      ensures failure.Some? ==> isAuth == old(isAuth) && accessToken == old(accessToken)
      ensures conversationId == old(conversationId) && issued == old(issued)
    {
      match AuthOutcome(reply, loads)
      case Failure(e) =>
        failure := Some(e);
      case Success(token) =>
        accessToken := token;
        isAuth := true;
        failure := None;
    }

    /** Forgets the conversation id; nothing else changes. */
    method NewConversation()
      requires Valid()
      modifies this
      ensures Valid()
      ensures conversationId.None?
      ensures accessToken == old(accessToken) && isAuth == old(isAuth) && issued == old(issued)
    {
      conversationId := None;
    }

    /**
     * Sends one message, authenticating first (with `authReply`) when not yet authenticated;
     * an authentication failure propagates and nothing is sent. The request always carries
     * no conversation id and a freshly drawn parent id. Only a fully read answer replaces
     * the stored conversation id; a successful authentication stays even when the message fails.
     */
    method Say(message: string, authReply: Reply, reply: Reply, loads: string -> Option<Json>)
      returns (request: Option<SayRequest>, result: Result<ChatResponse, Error>)
      requires Valid()
      modifies this
      ensures Valid()
      ensures old(isAuth) ==> isAuth && accessToken == old(accessToken)
      ensures !old(isAuth) ==> match AuthOutcome(authReply, loads)
        case Failure(e) =>
          && request.None? && result == Failure(e)
          && !isAuth && accessToken == old(accessToken) && issued == old(issued)
        case Success(token) => isAuth && accessToken == token
      ensures request.Some? <==> old(isAuth) || AuthOutcome(authReply, loads).Success?
      ensures request.Some? ==> issued == old(issued) + 2 && request.value == SayRequest(
        ConversationUrl,
        BearerHeaders(accessToken, None),
        Payloads.SendMessage(message, Generated(old(issued)), None, Some(Generated(old(issued) + 1))))
      ensures request.Some? ==> match SayOutcome(reply, loads)
        case Success(c) => result == Success(ChatResponse(c.messageId, c.conversationId, c.content))
        case Failure(e) => result == Failure(e)
      ensures result.Success? ==> conversationId == result.value.conversationId
      ensures result.Failure? ==> conversationId == old(conversationId)
    {
      if !isAuth {
        var failure := Auth(authReply, loads);
        if failure.Some? {
          return None, Failure(failure.value);
        }
      }
      var id := GenerateUuid();
      var parent := GenerateUuid();
      var data := Payloads.SendMessage(message, id, None, Some(parent));
      request := Some(SayRequest(ConversationUrl, BearerHeaders(accessToken, None), data));
      match SayOutcome(reply, loads)
      case Failure(e) =>
        result := Failure(e);
      case Success(c) =>
        conversationId := c.conversationId;
        result := Success(ChatResponse(c.messageId, c.conversationId, c.content));
    }
  }
}
