/** Concrete replies from the client's test suite, read with the model. */
module ReplyExamples {
  import opened Wrappers
  import opened Wire
  import opened Replies

  /** A body without any frame ("foo") yields no frame. */
  lemma NoFrameInPlainText()
    ensures LastFrame("foo") == None
  {
    assert FindAll("foo", 0) == [];
  }

  /** `{}` is too short for `{.+}`. */
  lemma EmptyObjectIsNoFrame()
    ensures LastFrame("data: {}\n") == None
  {
    var s := "data: {}\n";
    assert !MatchAt(s, 0);
    assert FindAll(s, 0) == [];
  }

  /** A single frame is captured from its `{` to its `}`. */
  lemma SingleFrame()
    ensures LastFrame("data: {\"foo\": \"bar\"}\n") == Some("{\"foo\": \"bar\"}")
  {
    var f := "{\"foo\": \"bar\"}";
    assert forall k :: 0 <= k < |f| ==> f[k] != '\n';
    assert "data: " + f + "\n" == "data: {\"foo\": \"bar\"}\n";
    SingleFrameBody(f);
  }

  /** Of two frames the second, later one is read. */
  lemma LastOfTwoFrames()
    ensures LastFrame("data: {\"a\"}\ndata: {\"b\"}\n") == Some("{\"b\"}")
  {
    var s := "data: {\"a\"}\ndata: {\"b\"}\n";
    assert s[0..7] == "data: {" && s[12..19] == "data: {";
    assert NextNewline(s, 7) == 11 && NextNewline(s, 19) == 23;
    assert MatchAt(s, 0) && MatchEnd(s, 0) == 12;
    assert MatchAt(s, 12) && MatchEnd(s, 12) == |s|;
    assert Group(s, 0) == s[6..11] == "{\"a\"}";
    assert Group(s, 12) == s[18..23] == "{\"b\"}";
    assert FindAll(s, 12) == ["{\"b\"}"];
  }

  /**
   * Matches do not overlap: a second `data: {` inside a matched line belongs to the first
   * match, so the frame read is not the one starting at the last matching position.
   */
  lemma OverlappingMatchIsSkipped()
    ensures MatchAt("data: {data: {x}\n", 7)
    ensures LastFrame("data: {data: {x}\n") == Some("{data: {x}")
  {
    var s := "data: {data: {x}\n";
    assert s[0..7] == "data: {" && s[7..14] == "data: {";
    assert NextNewline(s, 14) == 16;
    assert NextNewline(s, 7) == 16;
    assert MatchAt(s, 0) && MatchAt(s, 7) && MatchEnd(s, 0) == |s|;
    assert Group(s, 0) == s[6..16] == "{data: {x}";
  }

  /** The decoded frame of a valid reply: message id "123", conversation "234", one part "Message". */
  function ValidFrame(): Json
  {
    Obj(map[
      "message" := Obj(map["id" := Str("123"), "content" := Obj(map["parts" := Arr([Str("Message")])])]),
      "conversation_id" := Str("234")])
  }

  lemma ValidFrameIsRead()
    ensures ReadCompletion(ValidFrame()) == Some(Completion("123", Some("234"), "Message"))
  {
    var texts := Texts([Str("Message")]);
    assert texts.Some? && |texts.value| == 1 && texts.value[0] == "Message";
    assert texts.value == ["Message"];
  }

  /** `{"foo": "bar"}` lacks every key the client looks up. */
  lemma ForeignFrameIsRejected()
    ensures ReadCompletion(Obj(map["foo" := Str("bar")])) == None
  {
  }

  /** Parts that are a single string are joined character by character, as Python iterates it. */
  lemma StringPartsJoinCharacters()
    ensures JoinParts(Str("ab")) == Some("a\n\nb")
  {
    assert Chars("ab") == ["a", "b"];
    assert ["a", "b"][1..] == ["b"];
    assert Join(["a", "b"], Separator) == "a" + "\n\n" + "b" == "a\n\nb";
  }
}
