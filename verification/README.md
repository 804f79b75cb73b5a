# Conversation client for a chat web service, in Dafny

This project models the protocol client of `chatgpt-api`. It covers two clients: `ChatGPT` in `chatgpt/api.py` and the earlier `Chat` in `aichat/chat.py`.

A client exchanges a browser session token for an access token (`authenticate`). It sends user messages (`send_message` / `say`) and reads the streamed answer. It keeps the thread state the service needs, a conversation id and a parent message id, and `new_conversation` resets that state.

HTTP is abstracted away. Each server reply is a value `Wire.Reply(status, cookies, body)`: the status code, the names of the cookies the reply sets, and the body text. JSON decoding (`json.loads`, `response.json()`) is a function parameter `loads: string -> Option<Json>`. The lookups the clients make on the decoded value (`d["message"]["id"]` and so on) are modelled one by one on the `Json` datatype. Python exceptions are values of `Exceptions.Error`.

The modules follow the source:

- `Wire` holds the JSON value, the reply, the headers, message ids and the provider's URLs and cookie name.
- `Replies` models the frame pattern `data: ({.+})\n` exactly as `re.findall` scans: left to right, non-overlapping, and `.` never crossing a newline. It also holds the `"\n\n"` join and the answer and token lookups.
- `Payloads` holds the request body (`chatgpt/payloads.py`) as a record.
- `Api` holds the `ChatGpt` class.
- `Chat` holds the earlier client.
- `Browser` holds `_get_cookie`.
- `Variants` compares the two clients.
- `ReplyExamples`, `ApiScenarios` and `ChatScenarios` replay the test suite's situations.

Each client is a class whose methods update the same fields as the source. Each method is tied to a pure decision function (`AuthOutcome`, `ExchangeOutcome`, `SayOutcome`) whose contract states the source's error order.

A generated `uuid4` is `MessageId.Generated(n)`, the n-th id the client drew from a counter. An id received from the server is `Received(text)`. The class invariant keeps every generated id in the state below the counter. This is how "`new_conversation` gives a parent id different from the previous one" is proved; it stands for uuid4's freedom from collisions.

In these places the model follows the code:

- `send_message` answers 403 with `StatusCodeException`, not `UnauthorizedException` (`chatgpt/api.py:116-119`).
- An empty `parts` list is accepted and gives empty content. No check requires a part.
- A failed `authenticate` never resets the authentication flag. Re-authenticating an authenticated client and failing leaves it authenticated with its old token.

## Model

| member | source | states |
|---|---|---|
| `Wire.BearerHeaders` | chatgpt/api.py:57-64 | JSON accept and content type, `Authorization` is `"Bearer "` followed by the token text, the user agent passed through |
| `Replies.NextNewline` | chatgpt/api.py:120 | the first newline at or after a position (where a `.+` run must stop), or the end of the text |
| `Replies.Group` | chatgpt/api.py:120 | the captured group of a match is a frame: `{`, at least one character, `}`, no newline |
| `Replies.MatchEnd` | chatgpt/api.py:120 | a match ends strictly after it starts and within the text, so the scan makes progress |
| `Replies.FindAll` | chatgpt/api.py:120 | every string `findall` returns is a frame of that shape |
| `Replies.FindAllEmpty` | chatgpt/api.py:120-122 | `findall` returns nothing exactly when the pattern matches at no position |
| `Replies.FindAllLast` | chatgpt/api.py:120-123 | the last string `findall` returns is the group of the scan's last match: a real match after whose end the pattern matches nowhere, and which no earlier match from the scan's start runs past |
| `Replies.LastMatchUnique` | chatgpt/api.py:120-123 | the scan has only one such last match, so the frame is determined |
| `Replies.LastFrame` | chatgpt/api.py:120-123 | no frame exactly when nothing matches; otherwise a frame that is the group of the scan's last match from the start of the body (no match after its end, none before it running past it) |
| `Replies.SingleFrameBody` | chatgpt/api.py:120-123 | a body that is one line `data: <frame>` yields exactly that frame |
| `Replies.Join` | chatgpt/api.py:131 | `sep.join`: empty list gives empty text, one part gives itself, length is the parts' lengths plus one separator between each pair, first part is a prefix |
| `Replies.JoinSnoc` | chatgpt/api.py:131 | joining one more part appends the separator and that part |
| `Replies.Texts` | chatgpt/api.py:131 | a list of JSON values has texts exactly when every item is a string, and the texts are those strings in order |
| `Replies.JoinParts` | chatgpt/api.py:131 | `parts` as a list of strings is joined; a list with a non-string raises; a string is joined character by character; other values raise |
| `Replies.ReadCompletion` | chatgpt/api.py:125-132 | an answer exactly when `message`, its `id` (a string), `conversation_id` (a string or null), `message.content` and its `parts` are all present and the join succeeds; the answer's id is that string, its conversation id the string or None for null, its content the join |
| `Replies.CompletionRoundTrip` | chatgpt/api.py:125-132 | reading a well-formed frame object gives back its message id, conversation id and joined parts |
| `Replies.AccessToken` | chatgpt/api.py:94 | a token exactly when the `accessToken` key is present with a string or null; a string is kept as it is, null becomes None |
| `Payloads.SendMessage` | chatgpt/payloads.py:4-24 | action `next`, model `text-davinci-002-render`, exactly one user message with the given id, one text part holding the message unaltered, both thread ids passed through (None included) |
| `Payloads.ReadInputs` | chatgpt/payloads.py:4-24 | any payload whose inputs can be read back is exactly the payload built from those inputs |
| `Payloads.ReadInputsOfSendMessage` | chatgpt/payloads.py:7-24 | the four inputs are read back from every built payload, so nothing is lost |
| `Api.ChooseUserAgent` | chatgpt/api.py:49 | the user agent is never empty; a given non-empty one is used, a missing or empty one falls back to the default |
| `Api.AuthOutcome` | chatgpt/api.py:80-96 | 403 exactly gives Forbidden; any other non-200 gives a status error with that code; at 200 a missing cookie, an undecodable body or a missing token gives InvalidResponse; success exactly when none of these, carrying the token |
| `Api.ExchangeOutcome` | chatgpt/api.py:116-137 | 401 exactly gives Unauthorized; every other non-200 (403 included) gives a status error; no frame gives InvalidResponse; success exactly when the last frame decodes to a complete answer, which is that answer |
| `Api.ToResponse` | chatgpt/api.py:127-132 | the response's id and parent id are both the message id; conversation id and content are the answer's |
| `Api.ChatGpt.constructor` | chatgpt/api.py:36-51 | a fresh client has no access token, no conversation id, the flag false and a generated parent id |
| `Api.ChatGpt.ConversationHeaders` | chatgpt/api.py:57-64 | the headers carry the current token; before authentication the bearer text is `None` |
| `Api.ChatGpt.GenerateUuid` | chatgpt/api.py:145-146 | each call yields an id never drawn before |
| `Api.ChatGpt.Authenticate` | chatgpt/api.py:74-97 | the request carries the session token as the auth cookie; success exactly when the decision succeeds, and then the token is stored and the flag set; on failure the flag and token are unchanged; the thread ids never change |
| `Api.ChatGpt.SendMessage` | chatgpt/api.py:99-137 | unauthenticated: Unauthorized, no request, no id drawn; otherwise the payload carries a fresh message id and the pre-call thread ids, and the result is the exchange's outcome; on success both thread ids become the response's, on any failure neither changes |
| `Api.ChatGpt.NewConversation` | chatgpt/api.py:139-142 | conversation id None and a freshly drawn parent id different from the previous one; token and flag unchanged |
| `Chat.AuthOutcome` | aichat/chat.py:43-56 | any non-200 (403 included) exactly gives a status error; at 200 a missing cookie, an undecodable body or a missing token gives InvalidResponse; success exactly otherwise, carrying the token |
| `Chat.LastFrameOrRaise` | aichat/chat.py:90-92 | indexing `[-1]` raises IndexError exactly when nothing matches; a frame it returns is the last frame |
| `Chat.EmptyFrameCheckNeverFires` | aichat/chat.py:90-92 | the emptiness check after `[-1]` never reports an invalid response, because every frame has at least three characters |
| `Chat.SayOutcome` | aichat/chat.py:88-104 | every non-200 (401 included) exactly gives a status error; a 200 reply without frames exactly gives IndexError; success exactly when the last frame decodes to a complete answer |
| `Chat.Chat.constructor` | aichat/chat.py:28-38 | a fresh client keeps the supplied conversation id, holds no token and is unauthenticated |
| `Chat.Chat.GenerateUuid` | aichat/chat.py:19-20 | each call yields an id never drawn before |
| `Chat.Chat.Auth` | aichat/chat.py:40-56 | success exactly when the decision succeeds, and then the token is stored and the flag set; on failure the flag and token are unchanged |
| `Chat.Chat.NewConversation` | aichat/chat.py:58-59 | only the conversation id changes, to None; the class invariant is kept |
| `Chat.Chat.Say` | aichat/chat.py:61-104 | an unauthenticated client authenticates first, and a failure there is returned with nothing sent; the payload always has no conversation id and a fresh parent id; only a fully read answer replaces the stored conversation id; a successful authentication stays even when the message fails |
| `Browser.ValuesNamed` | chatgpt/browser.py:31 | the comprehension is empty exactly when no cookie has the name; otherwise its first value is that of the first cookie with the name |
| `Browser.GetCookie` | chatgpt/browser.py:30-32 | None exactly when no cookie has the name; otherwise the value of the first cookie in list order with that name |
| `Browser.GetCookieAppend` | chatgpt/browser.py:31-32 | cookies after a first match are ignored; a list without a match passes the lookup on to what follows |
| `Browser.GetCookieIgnoresOthers` | chatgpt/browser.py:31-32 | a cookie with another name, inserted anywhere, does not change the result |
| `Variants.AuthDiffersOnlyOn403` | aichat/chat.py:43-44 | the two authentication decisions agree on every reply except 403: Forbidden for `ChatGPT`, a status error for `Chat` |
| `Variants.ExchangeDiffersOn401AndMissingFrame` | aichat/chat.py:88-92 | the two clients read conversation replies alike except that 401 is Unauthorized vs a status error, and a 200 reply without frames is InvalidResponse vs IndexError |
| `Variants.PlainTextBodyRaisesIndexError` | aichat/chat.py:90-92 | the 200 reply `foo` raises IndexError in `Chat` but is an invalid response in `ChatGPT` |
| `ReplyExamples.NoFrameInPlainText` | tests/test_api_send_message.py:70-78 | the body `foo` has no frame |
| `ReplyExamples.EmptyObjectIsNoFrame` | chatgpt/api.py:120 | `data: {}` followed by a newline is no frame, since `{.+}` needs a character between the braces |
| `ReplyExamples.SingleFrame` | tests/test_api_send_message.py:81-92 | the body `data: {"foo": "bar"}` followed by a newline yields the frame `{"foo": "bar"}` |
| `ReplyExamples.LastOfTwoFrames` | chatgpt/api.py:120-123 | of two frame lines the later one is read |
| `ReplyExamples.OverlappingMatchIsSkipped` | chatgpt/api.py:120-123 | a `data: {` inside an already matched line is not a separate frame, so the frame read is not the match starting last |
| `ReplyExamples.ValidFrameIsRead` | tests/test_api_send_message.py:8-22 | the frame with message id 123, conversation 234 and part `Message` reads as that answer with content `Message` |
| `ReplyExamples.ForeignFrameIsRejected` | tests/test_api_send_message.py:81-92 | the object `{"foo": "bar"}` gives no answer |
| `ReplyExamples.StringPartsJoinCharacters` | chatgpt/api.py:131 | parts given as the string `ab` join to `a`, a blank line, `b` |
| `ApiScenarios.Authenticated` | tests/conftest.py:17-29 | a client given a valid session-check reply is authenticated with token `access123` and has no conversation id |

## Left out

- HTTP transport: the `httpx.Client` base class, `get`/`post`, the cookie jar that `authenticate` and `_auth` set, timeouts and `response_timeout`, and the context-manager methods at `chatgpt/api.py:66-72`. The `with` entry only calls `authenticate`. Replies are input values instead.
- The read timeout on sending (`httpx.ReadTimeout`) is not modelled. The clients in `chatgpt/api.py` and `aichat/chat.py` do not catch it; only the command-line loop (`chatgpt/cli.py:100`) does, and that loop is left out.
- JSON text: decoding is the `loads` parameter, and the payload's serialised text is not built. Numbers in decoded JSON are integers only, and key order of objects is not kept.
- `Replies.ReadCompletion`: a message id that is not a JSON string, or a conversation id that is neither a string nor null, is rejected as an invalid response. Python would store such a value as it is. The model's thread state holds text.
- `Replies.AccessToken`: an `accessToken` that is neither a string nor null is rejected. Python would store it and authenticate.
- `Replies.JoinParts`: `parts` given as a JSON object is rejected. Python would join the object's keys, and the model's objects keep no key order.
- The `conversation_id` property (`chatgpt/api.py:53-55`) is the field `conversationId` itself.
- Exception messages and the response object a `StatusCodeException` carries: only the status code is kept.
- uuid4 randomness: it is replaced by a per-client counter, as described above. Ids are not rendered as text.
- The aichat client's `httpx.Client` argument: it is transport.
- The command-line programs, logging, configuration files, `browser.login` and `browser.install`, and the ad-hoc script `chatgpt/test.py`, which calls signatures `api.py` does not have. `chatgpt/const.py` is not part of this model; its URL only appears in an exception message.

## Findings

| source | as written | input that shows it | evidently intended | confidence | as-written member | corrected member |
|---|---|---|---|---|---|---|
| aichat/chat.py:90-92 | takes `findall(...)[-1]` before checking for a missing frame, so the check at line 91 can never fire | a 200 reply with body `foo` raises IndexError | a reply without frames is an invalid response, as the later client checks first (`chatgpt/api.py:120-123`) | high; not executed | `Variants.PlainTextBodyRaisesIndexError` | `Replies.LastFrame` |
