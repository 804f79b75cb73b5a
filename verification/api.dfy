/**
 * The conversation client `ChatGPT`: authentication, sending a message and starting a new
 * thread. Each server reply is an input value; `loads` is the JSON decoder.
 */
module Api {
  import opened Wrappers
  import opened Wire
  import opened Exceptions
  import opened Replies
  import Payloads

  const DefaultUserAgent: string :=
    "Mozilla/5.0 (Windows NT 10.0; Win64; x64) "
    + "AppleWebKit/537.36 (KHTML, like Gecko) Chrome/108.0.0.0 Safari/537.36"

  /** The answer to one message; `parentMessageId` is the id the next message continues from. */
  datatype Response = Response(id: string, conversationId: Option<string>, parentMessageId: string, content: string)

  /** The GET issued by `authenticate`: the session token goes out as the auth cookie. */
  datatype AuthRequest = AuthRequest(url: string, cookieName: string, cookieValue: string, userAgent: string)

  /** The POST issued by `send_message`. */
  datatype ConversationRequest = ConversationRequest(url: string, headers: Headers, payload: Payloads.Payload)

  /** `user_agent or DEFAULT`: a missing or empty user agent falls back to the default. */
  function ChooseUserAgent(userAgent: Option<string>): (ua: string)
    ensures ua != ""
    ensures userAgent.Some? && userAgent.value != "" ==> ua == userAgent.value
    ensures userAgent.None? || userAgent.value == "" ==> ua == DefaultUserAgent
  {
    if userAgent.Some? && userAgent.value != "" then userAgent.value else DefaultUserAgent
  }

  /**
   * The decision `authenticate` takes on the session-check reply, in the source's order:
   * 403, any other non-200, the missing auth cookie, then an undecodable body or missing
   * `accessToken`. Success carries the token to store.
   */
  function AuthOutcome(reply: Reply, loads: string -> Option<Json>): (r: Result<Option<string>, Error>)
    ensures r == Failure(Forbidden) <==> reply.status == 403
    ensures r.Failure? && r.error.StatusCode? <==> reply.status != 403 && reply.status != 200
    ensures r.Failure? && r.error.StatusCode? ==> r.error.status == reply.status
    ensures r == Failure(InvalidResponse) <==>
      reply.status == 200 &&
      (AuthCookieName !in reply.cookies || loads(reply.body).None? || AccessToken(loads(reply.body).value).None?)
    ensures r.Success? <==>
      reply.status == 200 && AuthCookieName in reply.cookies &&
      loads(reply.body).Some? && AccessToken(loads(reply.body).value).Some?
    ensures r.Success? ==> Some(r.value) == AccessToken(loads(reply.body).value)
  {
    if reply.status == 403 then Failure(Forbidden)
    else if reply.status != 200 then Failure(StatusCode(reply.status))
    else if AuthCookieName !in reply.cookies then Failure(InvalidResponse)
    else match loads(reply.body)
      case None => Failure(InvalidResponse)
      case Some(d) =>
        match AccessToken(d)
        case None => Failure(InvalidResponse)
        case Some(token) => Success(token)
  }

  /**
   * What `send_message` makes of the conversation reply once the request is sent:
   * 401 is Unauthorized, every other non-200 (403 included) a status error, no frame or
   * a frame that does not decode to a complete answer an invalid response.
   */
  function ExchangeOutcome(reply: Reply, loads: string -> Option<Json>): (r: Result<Completion, Error>)
    ensures r == Failure(Unauthorized) <==> reply.status == 401
    ensures r.Failure? && r.error.StatusCode? <==> reply.status != 401 && reply.status != 200
    ensures r.Failure? && r.error.StatusCode? ==> r.error.status == reply.status
    ensures reply.status == 200 && LastFrame(reply.body).None? ==> r == Failure(InvalidResponse)
    ensures r.Success? <==>
      reply.status == 200 && LastFrame(reply.body).Some? &&
      loads(LastFrame(reply.body).value).Some? &&
      ReadCompletion(loads(LastFrame(reply.body).value).value).Some?
    ensures r.Success? ==> Some(r.value) == ReadCompletion(loads(LastFrame(reply.body).value).value)
    ensures r.Failure? ==> r.error in {Unauthorized, StatusCode(reply.status), InvalidResponse}
  {
    if reply.status == 401 then Failure(Unauthorized)
    else if reply.status != 200 then Failure(StatusCode(reply.status))
    else match LastFrame(reply.body)
      case None => Failure(InvalidResponse)
      case Some(frame) =>
        match loads(frame)
        case None => Failure(InvalidResponse)
        case Some(d) =>
          match ReadCompletion(d)
          case None => Failure(InvalidResponse)
          case Some(c) => Success(c)
  }

  /** The Response built from a completion: the message id is both its id and the new parent id. */
  function ToResponse(c: Completion): (resp: Response)
    ensures resp.id == resp.parentMessageId == c.messageId
    ensures resp.conversationId == c.conversationId && resp.content == c.content
  {
    Response(c.messageId, c.conversationId, c.messageId, c.content)
  }

  class ChatGpt {
    const sessionToken: string
    const userAgent: string
    var accessToken: Option<string>
    var conversationId: Option<string>
    var parentMessageId: MessageId
    var authFlag: bool
    /** How many uuids this client has drawn; the next one is Generated(issued). */
    var issued: nat

    /** Every id drawn so far is below the counter, and no token is held before authentication. */
    ghost predicate Valid()
      reads this
    {
      && (parentMessageId.Generated? ==> parentMessageId.serial < issued)
      && (!authFlag ==> accessToken.None?)
    }

    constructor (sessionToken: string, userAgent: Option<string>)
      ensures Valid()
      ensures this.sessionToken == sessionToken && this.userAgent == ChooseUserAgent(userAgent)
      ensures accessToken.None? && conversationId.None? && !authFlag
      ensures parentMessageId == Generated(0) && issued == 1
    {
      this.sessionToken := sessionToken;
      accessToken := None;
      conversationId := None;
      parentMessageId := Generated(0);
      issued := 1;
      authFlag := false;
      this.userAgent := ChooseUserAgent(userAgent);
    }

    /** The conversation request headers for the current token. */
    function ConversationHeaders(): (h: Headers)
      reads this
      ensures h == BearerHeaders(accessToken, Some(userAgent))
      ensures accessToken.None? ==> h.authorization == "Bearer None"
    {
      BearerHeaders(accessToken, Some(userAgent))
    }

    /** Draws a fresh uuid. */
    method GenerateUuid() returns (id: MessageId)
      modifies this`issued
      ensures id == Generated(old(issued)) && issued == old(issued) + 1
    {
      id := Generated(issued);
      issued := issued + 1;
    }

    /**
     * Exchanges the session token for an access token. Only full success stores the token
     * and sets the flag; every failure leaves the client as it was.
     */
    method Authenticate(reply: Reply, loads: string -> Option<Json>) returns (request: AuthRequest, failure: Option<Error>)
      requires Valid()
      modifies this
      ensures Valid()
      ensures request == AuthRequest(AuthUrl, AuthCookieName, sessionToken, userAgent)
      ensures failure.None? <==> AuthOutcome(reply, loads).Success?
      ensures failure.Some? ==> failure.value == AuthOutcome(reply, loads).error
      ensures failure.None? ==> authFlag && accessToken == AuthOutcome(reply, loads).value
      ensures failure.Some? ==> authFlag == old(authFlag) && accessToken == old(accessToken)
      ensures conversationId == old(conversationId) && parentMessageId == old(parentMessageId) && issued == old(issued)
    {
      request := AuthRequest(AuthUrl, AuthCookieName, sessionToken, userAgent);
      match AuthOutcome(reply, loads)
      case Failure(e) =>
        failure := Some(e);
      case Success(token) =>
        accessToken := token;
        authFlag := true;
        failure := None;
    }

    /**
     * Sends one message. Unauthenticated, it fails before any request is built. Otherwise
     * the request carries the thread ids held before the call, and the two ids are replaced
     * together, from the answer, only when the whole reply has been read.
     */
    method SendMessage(message: string, reply: Reply, loads: string -> Option<Json>)
      returns (request: Option<ConversationRequest>, result: Result<Response, Error>)
      requires Valid()
      modifies this
      ensures Valid()
      ensures !old(authFlag) ==> request.None? && result == Failure(Unauthorized) && issued == old(issued)
      ensures old(authFlag) ==> issued == old(issued) + 1 && request == Some(ConversationRequest(
        ConversationUrl,
        BearerHeaders(accessToken, Some(userAgent)),
        Payloads.SendMessage(message, Generated(old(issued)), old(conversationId), Some(old(parentMessageId)))))
      ensures old(authFlag) ==> match ExchangeOutcome(reply, loads)
        case Success(c) => result == Success(ToResponse(c))
        case Failure(e) => result == Failure(e)
      ensures result.Success? ==>
        conversationId == result.value.conversationId && parentMessageId == Received(result.value.parentMessageId)
      ensures result.Failure? ==> conversationId == old(conversationId) && parentMessageId == old(parentMessageId)
      ensures authFlag == old(authFlag) && accessToken == old(accessToken)
    {
      if !authFlag {
        return None, Failure(Unauthorized);
      }
      var id := GenerateUuid();
      var data := Payloads.SendMessage(message, id, conversationId, Some(parentMessageId));
      request := Some(ConversationRequest(ConversationUrl, ConversationHeaders(), data));
      match ExchangeOutcome(reply, loads)
      case Failure(e) =>
        result := Failure(e);
      case Success(c) =>
        var resp := ToResponse(c);
        conversationId := resp.conversationId;
        parentMessageId := Received(resp.parentMessageId);
        result := Success(resp);
    }

    /** Starts a new thread: no conversation id and a freshly drawn parent id. */
    method NewConversation()
      requires Valid()
      modifies this
      ensures Valid()
      ensures conversationId.None? && parentMessageId == Generated(old(issued))
      ensures parentMessageId != old(parentMessageId)
      ensures issued == old(issued) + 1 && authFlag == old(authFlag) && accessToken == old(accessToken)
    {
      conversationId := None;
      parentMessageId := GenerateUuid();
    }
  }
}
