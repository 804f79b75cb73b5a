/**
 * What travels between a client and the conversational service: decoded JSON values,
 * a server reply as the client sees it, request headers, message ids and the
 * provider's fixed names.
 */
module Wire {
  import opened Wrappers

  const AuthUrl: string := "https://chat.openai.com/api/auth/session"
  const ConversationUrl: string := "https://chat.openai.com/backend-api/conversation"
  const AuthCookieName: string := "__Secure-next-auth.session-token"
  const JsonMediaType: string := "application/json"

  /** A decoded JSON value. Numbers are kept as integers; object key order is not kept. */
  datatype Json =
    | Null
    | Bool(b: bool)
    | Num(n: int)
    | Str(s: string)
    | Arr(items: seq<Json>)
    | Obj(fields: map<string, Json>)

  /** Python's `value[key]`: succeeds only on an object that has the key; every other case raises. */
  function Lookup(j: Json, key: string): Option<Json>
  {
    if j.Obj? && key in j.fields then Some(j.fields[key]) else None
  }

  /**
   * One server reply: its status code, the names of the cookies it sets, and its body text.
   * Decoding the body as JSON is the caller-supplied `loads` wherever a reply is read.
   */
  datatype Reply = Reply(status: int, cookies: set<string>, body: string)

  /**
   * A message id. A locally generated uuid4 is `Generated(n)`, the n-th id the client drew;
   * an id the server sent is `Received(text)`. Drawing from a counter stands for uuid4's
   * freedom from collisions.
   */
  datatype MessageId = Generated(serial: nat) | Received(text: string)

  /** Request headers; the earlier client sends no User-Agent. */
  datatype Headers = Headers(accept: string, authorization: string, contentType: string, userAgent: Option<string>)

  /** Python's `"{}".format(token)` for a token that is a string or None. */
  function TokenText(token: Option<string>): string
  {
    match token
    case None => "None"
    case Some(s) => s
  }

  /** The headers of a conversation request: JSON both ways and the access token as bearer. */
  function BearerHeaders(token: Option<string>, userAgent: Option<string>): (h: Headers)
    ensures h.accept == JsonMediaType && h.contentType == JsonMediaType
    ensures |h.authorization| >= 7 && h.authorization[..7] == "Bearer "
    ensures h.authorization[7..] == TokenText(token)
    ensures h.userAgent == userAgent
  {
    Headers(JsonMediaType, "Bearer " + TokenText(token), JsonMediaType, userAgent)
  }
}
