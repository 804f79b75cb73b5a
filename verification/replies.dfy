/**
 * Reading a conversation reply: the server-sent-event frames found by the pattern
 * `data: ({.+})\n`, the last of them, the joined answer text, and the access token
 * of an authentication reply.
 */
module Replies {
  import opened Wrappers
  import opened Wire

  const Separator: string := "\n\n"

  // ---------------------------------------------------------------------------
  // The frame pattern, as Python's re.findall applies it
  // ---------------------------------------------------------------------------

  /** The first newline at or after `i`, or `|s|` when there is none. */
  function NextNewline(s: string, i: nat): (q: nat)
    requires i <= |s|
    ensures i <= q <= |s|
    ensures q < |s| ==> s[q] == '\n'
    ensures forall k :: i <= k < q ==> s[k] != '\n'
    decreases |s| - i
  {
    if i == |s| || s[i] == '\n' then i else NextNewline(s, i + 1)
  }

  /**
   * The pattern matches at `p`: `data: {` starts there, and the line it is on ends,
   * before its newline, in a `}` with at least one character after the `{`
   * (`.` never crosses a newline, so `}\n` can only be the end of that line).
   */
  predicate MatchAt(s: string, p: nat)
  {
    p + 7 <= |s| && s[p..p + 7] == "data: {" &&
    var q := NextNewline(s, p + 7);
    q < |s| && p + 9 <= q && s[q - 1] == '}'
  }

  /** The captured group of a match at `p`: from the `{` up to and including the `}`. */
  function Group(s: string, p: nat): (g: string)
    requires MatchAt(s, p)
    ensures IsFrame(g)
  {
    var q := NextNewline(s, p + 7);
    assert s[p + 6] == s[p..p + 7][6] == '{';
    s[p + 6..q]
  }

  /** Where the search resumes after a match at `p`: just past its newline. */
  function MatchEnd(s: string, p: nat): (e: nat)
    requires MatchAt(s, p)
    ensures p < e <= |s|
  {
    NextNewline(s, p + 7) + 1
  }

  /** A captured frame: `{`, at least one character, `}`, and no newline. */
  predicate IsFrame(f: string)
  {
    |f| >= 3 && f[0] == '{' && f[|f| - 1] == '}' && forall k :: 0 <= k < |f| ==> f[k] != '\n'
  }

  /**
   * `re.findall(r"data: ({.+})\n", s[i..])`: left to right, non-overlapping; after a
   * failed attempt the search moves on by one character, after a match past its end.
   */
  function FindAll(s: string, i: nat): (frames: seq<string>)
    requires i <= |s|
    ensures forall k :: 0 <= k < |frames| ==> IsFrame(frames[k])
    decreases |s| - i
  {
    if i == |s| then []
    else if MatchAt(s, i) then [Group(s, i)] + FindAll(s, MatchEnd(s, i))
    else FindAll(s, i + 1)
  }

  /** findall finds nothing exactly when the pattern matches at no position. */
  lemma {:induction false} FindAllEmpty(s: string, i: nat)
    requires i <= |s|
    ensures FindAll(s, i) == [] <==> forall p: nat :: i <= p ==> !MatchAt(s, p)
    decreases |s| - i
  {
    if i < |s| && !MatchAt(s, i) {
      FindAllEmpty(s, i + 1);
    }
  }

  /**
   * `p` is where the scan from `i` makes its last match: the pattern matches at `p`, no
   * match starts at or after its end, and every match starting between `i` and `p` ends by
   * `p` (so none of them swallows it).
   */
  ghost predicate IsLastMatch(s: string, i: nat, p: nat)
  {
    i <= p && MatchAt(s, p) &&
    (forall p': nat :: MatchEnd(s, p) <= p' ==> !MatchAt(s, p')) &&
    forall p': nat :: i <= p' < p && MatchAt(s, p') ==> MatchEnd(s, p') <= p
  }

  /** The scan has at most one last match. */
  lemma LastMatchUnique(s: string, i: nat, p1: nat, p2: nat)
    requires IsLastMatch(s, i, p1) && IsLastMatch(s, i, p2)
    ensures p1 == p2
  {
  }

  /** The last frame findall returns is the group of the scan's last match. */
  lemma {:induction false} FindAllLast(s: string, i: nat)
    requires i <= |s| && FindAll(s, i) != []
    ensures exists p: nat :: IsLastMatch(s, i, p) && Group(s, p) == FindAll(s, i)[|FindAll(s, i)| - 1]
    decreases |s| - i
  {
    if !MatchAt(s, i) {
      FindAllLast(s, i + 1);
      var p: nat :| IsLastMatch(s, i + 1, p) && Group(s, p) == FindAll(s, i + 1)[|FindAll(s, i + 1)| - 1];
      assert IsLastMatch(s, i, p);
    } else if FindAll(s, MatchEnd(s, i)) == [] {
      FindAllEmpty(s, MatchEnd(s, i));
      assert FindAll(s, i) == [Group(s, i)];
      assert IsLastMatch(s, i, i);
    } else {
      var e := MatchEnd(s, i);
      FindAllLast(s, e);
      var p: nat :| IsLastMatch(s, e, p) && Group(s, p) == FindAll(s, e)[|FindAll(s, e)| - 1];
      LastMatchAfterMatch(s, i, p);
      assert FindAll(s, i) == [Group(s, i)] + FindAll(s, e);
    }
  }

  /** A last match of the scan resumed after a match at `i` is the last match of the scan from `i`. */
  lemma LastMatchAfterMatch(s: string, i: nat, p: nat)
    requires MatchAt(s, i) && IsLastMatch(s, MatchEnd(s, i), p)
    ensures IsLastMatch(s, i, p)
  {
    var e := MatchEnd(s, i);
    forall p': nat | i <= p' < p && MatchAt(s, p')
      ensures MatchEnd(s, p') <= p
    {
      if i < p' < e {
        SameLine(s, i, p');
      }
    }
  }

  /** Every position from `j` up to the first newline after `i` sees that same newline first. */
  lemma NextNewlineFrom(s: string, i: nat, j: nat)
    requires i <= |s| && i <= j <= NextNewline(s, i)
    ensures NextNewline(s, j) == NextNewline(s, i)
  {
  }

  /** A match that starts inside another match is on the same line, so it ends where that one ends. */
  lemma SameLine(s: string, p: nat, p': nat)
    requires MatchAt(s, p) && MatchAt(s, p') && p < p' < MatchEnd(s, p)
    ensures MatchEnd(s, p') == MatchEnd(s, p)
  {
    var q := NextNewline(s, p + 7);
    assert s[p'] == s[p'..p' + 7][0] == 'd';
    assert p' < q;
    NextNewlineFrom(s, p + 7, p' + 7);
  }

  /**
   * The frame a conversation reply is read from: the last findall match, or None when
   * there is none.
   */
  function LastFrame(body: string): (r: Option<string>)
    ensures r.None? <==> forall p: nat :: !MatchAt(body, p)
    ensures r.Some? ==> IsFrame(r.value)
    ensures r.Some? ==> exists p: nat :: IsLastMatch(body, 0, p) && Group(body, p) == r.value
  {
    var frames := FindAll(body, 0);
    FindAllEmpty(body, 0);
    if frames == [] then None
    else
      FindAllLast(body, 0);
      Some(frames[|frames| - 1])
  }

  /** A body that is one frame line yields exactly that frame. */
  lemma {:induction false} SingleFrameBody(f: string)
    requires IsFrame(f)
    ensures LastFrame("data: " + f + "\n") == Some(f)
  {
    var s := "data: " + f + "\n";
    assert s[0..7] == "data: {";
    assert forall k :: 7 <= k < 6 + |f| ==> s[k] == f[k - 6];
    var q := NextNewline(s, 7);
    assert s[6 + |f|] == '\n';
    assert q == 6 + |f|;
    assert MatchAt(s, 0) && MatchEnd(s, 0) == |s|;
    assert Group(s, 0) == s[6..6 + |f|] == f;
    assert FindAll(s, 0) == [f];
  }

  // ---------------------------------------------------------------------------
  // Joining the answer's parts
  // ---------------------------------------------------------------------------

  /** Total length of a list of strings. */
  function TotalLength(parts: seq<string>): nat
  {
    if parts == [] then 0 else |parts[0]| + TotalLength(parts[1..])
  }

  /** Python's `sep.join(parts)`. */
  function Join(parts: seq<string>, sep: string): (r: string)
    ensures parts == [] ==> r == ""
    ensures |parts| == 1 ==> r == parts[0]
    ensures parts != [] ==> |r| == TotalLength(parts) + (|parts| - 1) * |sep|
    ensures parts != [] ==> r[..|parts[0]|] == parts[0]
  {
    if parts == [] then ""
    else if |parts| == 1 then parts[0]
    else parts[0] + sep + Join(parts[1..], sep)
  }

  /** The part just before the last: joining one more part adds the separator and that part. */
  lemma {:induction false} JoinSnoc(parts: seq<string>, sep: string, last: string)
    requires parts != []
    ensures Join(parts + [last], sep) == Join(parts, sep) + sep + last
    decreases |parts|
  {
    if |parts| == 1 {
      assert parts + [last] == [parts[0], last];
    } else {
      assert (parts + [last])[1..] == parts[1..] + [last];
      JoinSnoc(parts[1..], sep, last);
    }
  }

  /** The one-character strings of `s`, as iterating a Python string yields them. */
  function Chars(s: string): seq<string>
  {
    seq(|s|, k requires 0 <= k < |s| => [s[k]])
  }

  /** The texts of a list of JSON strings, or None when some item is not a string. */
  function Texts(items: seq<Json>): (r: Option<seq<string>>)
    ensures r.Some? <==> forall k :: 0 <= k < |items| ==> items[k].Str?
    ensures r.Some? ==> |r.value| == |items| && forall k :: 0 <= k < |items| ==> items[k] == Str(r.value[k])
  {
    if items == [] then Some([])
    else if !items[0].Str? then None
    else match Texts(items[1..])
      case None => None
      case Some(rest) => Some([items[0].s] + rest)
  }

  /**
   * `"\n\n".join(parts)` on a decoded `parts` value: a list of strings is joined, a string
   * is joined character by character; anything else raises.
   */
  function JoinParts(parts: Json): (r: Option<string>)
    ensures parts.Arr? ==> (r.Some? <==> forall k :: 0 <= k < |parts.items| ==> parts.items[k].Str?)
    ensures parts.Arr? && r.Some? ==> r == Some(Join(Texts(parts.items).value, Separator))
    ensures parts.Str? ==> r == Some(Join(Chars(parts.s), Separator))
    ensures !parts.Arr? && !parts.Str? ==> r.None?
  {
    match parts
    case Arr(items) =>
      (match Texts(items)
       case None => None
       case Some(texts) => Some(Join(texts, Separator)))
    case Str(s) => Some(Join(Chars(s), Separator))
    case _ => None
  }

  // ---------------------------------------------------------------------------
  // Reading the decoded frame and the authentication body
  // ---------------------------------------------------------------------------

  /** What a successful reply carries: the message id, the conversation id (JSON null is None) and the joined text. */
  datatype Completion = Completion(messageId: string, conversationId: Option<string>, content: string)

  /** A conversation id as the client keeps it: a string, or None for JSON null. */
  function OptionalText(j: Json): Option<Option<string>>
  {
    match j
    case Str(s) => Some(Some(s))
    case Null => Some(None)
    case _ => None
  }

  /**
   * The lookups `d["message"]["id"]`, `d["conversation_id"]` and
   * `d["message"]["content"]["parts"]` followed by the join; None when any of them raises.
   */
  function ReadCompletion(d: Json): (r: Option<Completion>)
    ensures r.Some? <==>
      && Lookup(d, "message").Some?
      && Lookup(Lookup(d, "message").value, "id").Some?
      && Lookup(Lookup(d, "message").value, "id").value.Str?
      && Lookup(d, "conversation_id").Some?
      && (Lookup(d, "conversation_id").value.Str? || Lookup(d, "conversation_id").value.Null?)
      && Lookup(Lookup(d, "message").value, "content").Some?
      && Lookup(Lookup(Lookup(d, "message").value, "content").value, "parts").Some?
      && JoinParts(Lookup(Lookup(Lookup(d, "message").value, "content").value, "parts").value).Some?
    ensures r.Some? ==>
      var message := Lookup(d, "message").value;
      var conv := Lookup(d, "conversation_id").value;
      && Lookup(message, "id") == Some(Str(r.value.messageId))
      && r.value.conversationId == (if conv.Null? then None else Some(conv.s))
      && JoinParts(Lookup(Lookup(message, "content").value, "parts").value) == Some(r.value.content)
  {
    match Lookup(d, "message")
    case None => None
    case Some(message) =>
      match (Lookup(message, "id"), Lookup(d, "conversation_id"), Lookup(message, "content"))
      case (Some(Str(id)), Some(conv), Some(content)) =>
        (match (OptionalText(conv), Lookup(content, "parts"))
         case (Some(convId), Some(parts)) =>
           (match JoinParts(parts)
            case Some(text) => Some(Completion(id, convId, text))
            case None => None)
         case _ => None)
      case _ => None
  }

  /** The frame object a server sends for a finished answer. */
  function CompletionJson(messageId: string, conversationId: Option<string>, parts: seq<string>): Json
  {
    Obj(map[
      "message" := Obj(map[
        "id" := Str(messageId),
        "content" := Obj(map["parts" := Arr(seq(|parts|, k requires 0 <= k < |parts| => Str(parts[k])))])]),
      "conversation_id" := match conversationId case None => Null case Some(c) => Str(c)])
  }

  /** Reading a well-formed frame object gives back its ids and the joined parts. */
  lemma CompletionRoundTrip(messageId: string, conversationId: Option<string>, parts: seq<string>)
    ensures ReadCompletion(CompletionJson(messageId, conversationId, parts))
         == Some(Completion(messageId, conversationId, Join(parts, Separator)))
  {
    var items := seq(|parts|, k requires 0 <= k < |parts| => Str(parts[k]));
    assert Texts(items).value == parts;
  }

  /** `d["accessToken"]` as the client keeps it: a string, or None for JSON null; None when the lookup raises. */
  function AccessToken(d: Json): (r: Option<Option<string>>)
    ensures r.Some? <==> Lookup(d, "accessToken").Some? &&
                         (Lookup(d, "accessToken").value.Str? || Lookup(d, "accessToken").value.Null?)
    ensures r.Some? && Lookup(d, "accessToken").value.Str? ==> r.value == Some(Lookup(d, "accessToken").value.s)
    ensures r.Some? && Lookup(d, "accessToken").value.Null? ==> r.value.None?
  {
    match Lookup(d, "accessToken")
    case None => None
    case Some(t) => OptionalText(t)
  }
}
