/**
 * Turning a chat reply of the generative model into a parsed value: pick the
 * text out of a string-or-list content field, remove the code-fence markers
 * (the regular expression /```json|```/g replaced by ""), trim, and hand the
 * rest to JSON.parse. JSON.parse itself is external and is passed in as a
 * partial function `parse`.
 */
module ModelOutput {
  import opened Wrappers
  import opened Text

  /** One element of a list-shaped content field; `text` may be missing. */
  datatype Part = Part(text: Option<string>)

  /** `message.content`: either a string or a list of parts. */
  datatype Content = Plain(s: string) | Parts(parts: seq<Part>)

  datatype Message = Message(content: Option<Content>)

  /** What `ai.chat` resolves to; `None` stands for a null or undefined reply. */
  datatype Reply = Reply(message: Option<Message>)

  /**
   * `typeof content === "string" ? content : content[0].text`; `None` where
   * the expression throws or yields undefined (empty list, missing text).
   */
  function ContentText(c: Content): Option<string>
  {
    match c
    case Plain(s) => Some(s)
    case Parts(ps) => if |ps| == 0 then None else ps[0].text
  }

  /** The reply's text, or `None` where reading it would fail. */
  function ReplyText(reply: Option<Reply>): (r: Option<string>)
    ensures r.Some? ==> reply.Some? && reply.value.message.Some? && reply.value.message.value.content.Some?
    ensures r.Some? && reply.value.message.value.content.value.Parts? ==>
      var ps := reply.value.message.value.content.value.parts;
      |ps| > 0 && ps[0].text == r
  {
    if reply.None? || reply.value.message.None? || reply.value.message.value.content.None? then None
    else ContentText(reply.value.message.value.content.value)
  }

  /** A reply whose content is the string `s`. */
  function PlainReply(s: string): Option<Reply>
  {
    Some(Reply(Some(Message(Some(Plain(s))))))
  }

  /** The text reaches the parser the same whichever content shape carries it. */
  lemma ReplyTextShapeAgnostic(s: string, rest: seq<Part>)
    ensures ReplyText(PlainReply(s)) == Some(s)
    ensures ReplyText(Some(Reply(Some(Message(Some(Parts([Part(Some(s))] + rest))))))) == Some(s)
  {
  }

  /** A missing reply, message or content, an empty part list or a part without text yields no text. */
  lemma ReplyTextFailures()
    ensures ReplyText(None).None?
    ensures ReplyText(Some(Reply(None))).None?
    ensures ReplyText(Some(Reply(Some(Message(None))))).None?
    ensures ReplyText(Some(Reply(Some(Message(Some(Parts([]))))))).None?
    ensures ReplyText(Some(Reply(Some(Message(Some(Parts([Part(None)]))))))).None?
  {
  }

  // ---- fence stripping ----

  /** Three backticks start at position i. */
  predicate FenceAt(s: string, i: int)
  {
    0 <= i && i + 3 <= |s| && s[i] == '`' && s[i + 1] == '`' && s[i + 2] == '`'
  }

  /** "```json" starts at position 0. */
  predicate JsonFenceFirst(s: string)
  {
    FenceAt(s, 0) && |s| >= 7 && s[3] == 'j' && s[4] == 's' && s[5] == 'o' && s[6] == 'n'
  }

  predicate NoFence(s: string)
  {
    forall i | 0 <= i < |s| :: !FenceAt(s, i)
  }

  predicate NoBacktick(s: string)
  {
    forall i :: 0 <= i < |s| ==> s[i] != '`'
  }

  /**
   * `s.replace(/```json|```/g, "")`: scanning left to right, a match at a
   * position tries "```json" before "```", and a match is removed whole.
   */
  function StripFences(s: string): (r: string)
    ensures |r| <= |s|
    ensures |s| > 0 && s[0] != '`' ==> |r| > 0 && r[0] == s[0]
    decreases |s|
  {
    if s == [] then []
    else if JsonFenceFirst(s) then StripFences(s[7..])
    else if FenceAt(s, 0) then StripFences(s[3..])
    else [s[0]] + StripFences(s[1..])
  }

  /** After stripping, no three backticks remain anywhere. */
  lemma {:induction false} StripFencesLeavesNoFence(s: string)
    ensures NoFence(StripFences(s))
    decreases |s|
  {
    if s == [] {
    } else if JsonFenceFirst(s) {
      StripFencesLeavesNoFence(s[7..]);
    } else if FenceAt(s, 0) {
      StripFencesLeavesNoFence(s[3..]);
    } else {
      var t := StripFences(s[1..]);
      StripFencesLeavesNoFence(s[1..]);
      var r := [s[0]] + t;
      assert StripFences(s) == r;
      if s[0] == '`' && |s| >= 2 {
        if s[1] != '`' {
          assert t[0] == s[1];
        } else if |s| >= 3 {
          assert s[2] != '`';
          var u := s[1..];
          assert u[1] == s[2];
          assert t == [u[0]] + StripFences(u[1..]);
          assert u[1..] == s[2..];
          assert s[2..][0] == s[2];
          assert t[1] == s[2];
        } else {
          assert |t| <= 1;
        }
      }
      assert !FenceAt(r, 0);
      forall i | 0 < i < |r|
        ensures !FenceAt(r, i)
      {
        assert FenceAt(r, i) ==> FenceAt(t, i - 1);
      }
    }
  }

  /** Text without three backticks in a row passes through unchanged. */
  lemma {:induction false} StripFencesIdentity(s: string)
    requires NoFence(s)
    ensures StripFences(s) == s
    decreases |s|
  {
    if s != [] {
      assert !FenceAt(s, 0);
      forall i | 0 <= i < |s| - 1
        ensures !FenceAt(s[1..], i)
      {
        assert FenceAt(s[1..], i) ==> FenceAt(s, i + 1);
      }
      StripFencesIdentity(s[1..]);
    }
  }

  lemma StripFencesIdempotent(s: string)
    ensures StripFences(StripFences(s)) == StripFences(s)
  {
    StripFencesLeavesNoFence(s);
    StripFencesIdentity(StripFences(s));
  }

  /** A prefix without backticks is copied as it is. */
  lemma {:induction false} StripFencesAppend(p: string, x: string)
    requires NoBacktick(p)
    ensures StripFences(p + x) == p + StripFences(x)
    decreases |p|
  {
    if p == [] {
      assert p + x == x;
    } else {
      var s := p + x;
      assert s[0] == p[0] != '`';
      assert s[1..] == p[1..] + x;
      assert StripFences(s) == [s[0]] + StripFences(s[1..]);
      StripFencesAppend(p[1..], x);
      assert p + StripFences(x) == [p[0]] + (p[1..] + StripFences(x));
      assert [s[0]] + StripFences(s[1..]) == [p[0]] + (p[1..] + StripFences(x));
    }
  }

  /**
   * The text JSON.parse receives: fences removed, then trimmed. It carries no
   * surrounding whitespace, and is blank exactly when empty.
   */
  function CleanJson(text: string): (r: string)
    ensures |r| <= |text|
    ensures Trim(r) == r
    ensures IsBlank(r) <==> r == []
  {
    TrimIdempotent(StripFences(text));
    Trim(StripFences(text))
  }

  /**
   * A payload (free of backticks and not itself starting with "json") comes
   * out the same whether it is bare or wrapped in a "```json" or a "```" fence.
   */
  lemma CleanJsonIgnoresFences(p: string)
    requires NoBacktick(p)
    requires !(|p| >= 4 && p[0] == 'j' && p[1] == 's' && p[2] == 'o' && p[3] == 'n')
    ensures CleanJson(p) == Trim(p)
    ensures CleanJson("```json" + p + "```") == Trim(p)
    ensures CleanJson("```" + p + "```") == Trim(p)
  {
    StripFencesAppend(p, "");
    assert p + "" == p;
    StripClosedFence(p);
    StripJsonFence(p);
    StripPlainFence(p);
  }

  lemma StripClosedFence(p: string)
    requires NoBacktick(p)
    ensures StripFences(p + "```") == p
  {
    StripFencesAppend(p, "```");
    assert StripFences("```") == "";
    assert p + "" == p;
  }

  lemma StripJsonFence(p: string)
    requires NoBacktick(p)
    ensures StripFences("```json" + p + "```") == p
  {
    var a := "```json" + p + "```";
    assert JsonFenceFirst(a);
    assert a[7..] == p + "```";
    StripClosedFence(p);
  }

  lemma StripPlainFence(p: string)
    requires NoBacktick(p)
    requires !(|p| >= 4 && p[0] == 'j' && p[1] == 's' && p[2] == 'o' && p[3] == 'n')
    ensures StripFences("```" + p + "```") == p
  {
    var b := "```" + p + "```";
    assert FenceAt(b, 0);
    assert b[3..] == p + "```";
    if |p| >= 4 {
      assert b[3] == p[0] && b[4] == p[1] && b[5] == p[2] && b[6] == p[3];
    } else if |p| >= 1 {
      assert b[3 + |p|] == '`';
    } else {
      assert |b| == 6;
    }
    assert !JsonFenceFirst(b);
    StripClosedFence(p);
  }

  /** JSON.parse: blank text is a syntax error; anything else is up to `parse`. */
  function ParseWith<T>(parse: string -> Option<T>, text: string): Option<T>
  {
    if IsBlank(text) then None else parse(text)
  }

  /**
   * The whole chain `JSON.parse(text.replace(/```json|```/g, "").trim())` on a
   * reply: fails when the reply has no text or the cleaned text is blank, and
   * otherwise yields whatever `parse` makes of the cleaned text. What
   * `CleanJson` leaves is pinned down by `CleanJsonIgnoresFences`, the
   * `StripFences` lemmas and `BlankIffTrimEmpty`.
   */
  function Decode<T>(reply: Option<Reply>, parse: string -> Option<T>): (r: Option<T>)
    ensures ReplyText(reply).None? ==> r.None?
    ensures ReplyText(reply).Some? && CleanJson(ReplyText(reply).value) == "" ==> r.None?
    ensures ReplyText(reply).Some? && CleanJson(ReplyText(reply).value) != "" ==>
      r == parse(CleanJson(ReplyText(reply).value))
    ensures r.Some? ==> CleanJson(ReplyText(reply).value) != ""
  {
    match ReplyText(reply)
    case None => None
    case Some(text) => ParseWith(parse, CleanJson(text))
  }
}
