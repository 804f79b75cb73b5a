/** Where the earlier `Chat` client and the `ChatGpt` client read the same reply differently. */
module Variants {
  import opened Wrappers
  import opened Wire
  import opened Exceptions
  import opened Replies
  import Api
  import Chat

  /** Authentication: the two agree on every reply except 403, which only ChatGpt singles out. */
  lemma AuthDiffersOnlyOn403(reply: Reply, loads: string -> Option<Json>)
    ensures reply.status != 403 ==> Chat.AuthOutcome(reply, loads) == Api.AuthOutcome(reply, loads)
    ensures reply.status == 403 ==>
      Api.AuthOutcome(reply, loads) == Failure(Forbidden) && Chat.AuthOutcome(reply, loads) == Failure(StatusCode(403))
  {
  }

  /**
   * Conversation replies: 401 is Unauthorized for ChatGpt but a status error for Chat; a
   * 200 reply without frames is an invalid response for ChatGpt but an IndexError for Chat;
   * on every other reply the two give the same outcome.
   */
  lemma ExchangeDiffersOn401AndMissingFrame(reply: Reply, loads: string -> Option<Json>)
    ensures reply.status == 401 ==>
      Api.ExchangeOutcome(reply, loads) == Failure(Unauthorized) &&
      Chat.SayOutcome(reply, loads) == Failure(StatusCode(401))
    ensures reply.status == 200 && LastFrame(reply.body).None? ==>
      Api.ExchangeOutcome(reply, loads) == Failure(InvalidResponse) &&
      Chat.SayOutcome(reply, loads) == Failure(IndexError)
    ensures reply.status != 401 && !(reply.status == 200 && LastFrame(reply.body).None?) ==>
      Api.ExchangeOutcome(reply, loads) == Chat.SayOutcome(reply, loads)
  {
    Chat.EmptyFrameCheckNeverFires(reply.body);
  }

  /**
   * The reply "foo" with status 200: the earlier client's `[-1]` raises IndexError before
   * its own check for a missing frame can report an invalid response; the later client
   * checks first and reports the invalid response.
   */
  lemma PlainTextBodyRaisesIndexError(loads: string -> Option<Json>)
    ensures Chat.SayOutcome(Reply(200, {}, "foo"), loads) == Failure(IndexError)
    ensures Api.ExchangeOutcome(Reply(200, {}, "foo"), loads) == Failure(InvalidResponse)
  {
    assert FindAll("foo", 0) == [];
  }
}
