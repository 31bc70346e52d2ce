/**
 * `Parser`: reading a user id out of a mention such as `[id123|Name]`, and
 * writing the `forward` parameter of `messages.send`, the JSON object that
 * makes a reply quote the messages it answers.
 */
module Parsing {
  import opened Text

  // ---------------------------------------------------------------------
  // DomainStringToLong
  // ---------------------------------------------------------------------

  /** A call either returns a value or throws (here: `Substring` with a negative length). */
  datatype Outcome = Returns(value: int) | Throws

  /** The shape a mention must have before any parsing is tried. */
  predicate MentionShaped(str: string)
  {
    '|' in str && |str| > 0 && str[0] == '[' && str[|str| - 1] == ']'
  }

  /** "id" and '|' cannot overlap, so "id" plus two passes the '|' only if "id" starts after it. */
  lemma IdAndBar(str: string)
    requires MentionShaped(str)
    ensures IndexOfSubstring(str, "id") + 2 > IndexOf(str, '|') <==> IndexOfSubstring(str, "id") > IndexOf(str, '|')
  {
    var k, m := IndexOfSubstring(str, "id"), IndexOf(str, '|');
    if k >= 0 {
      assert str[k..k + 2] == "id";
      assert str[k] == 'i' && str[k + 1] == 'd';
    }
  }

  /**
   * `Parser.DomainStringToLong`: the digits start two characters after the
   * first "id" (at index 1 when there is no "id") and end at the first '|'.
   * When the first "id" lies after the first '|', the substring length is
   * negative and `Substring` throws.
   */
  function DomainStringToLong(str: string): (r: Outcome)
    ensures !MentionShaped(str) ==> r == Returns(0)
    ensures r == Throws <==>
      MentionShaped(str) && IndexOfSubstring(str, "id") > IndexOf(str, '|')
    ensures r.Returns? ==> MinInt32 <= r.value <= MaxInt32
  {
    if MentionShaped(str) then
      var pos1 := IndexOfSubstring(str, "id") + 2;
      var pos2 := IndexOf(str, '|');
      IdAndBar(str);
      if pos1 > pos2 then Throws
      else
        match TryParse(str[pos1..pos2], MinInt32, MaxInt32)
        case Some(v) => Returns(v)
        case None => Returns(0)
    else Returns(0)
  }

  /** A mention written as `[id<n>|<name>]` gives `n` back, for every 32-bit `n`. */
  lemma MentionRoundTrip(n: int, name: string)
    requires MinInt32 <= n <= MaxInt32
    ensures DomainStringToLong("[id" + IntToString(n) + "|" + name + "]") == Returns(n)
  {
    var digits := IntToString(n);
    var str := "[id" + digits + "|" + name + "]";
    assert str[0] == '[' && str[|str| - 1] == ']';
    assert str[1..3] == "id";
    assert OccursAt(str, "id", 1) && !OccursAt(str, "id", 0);
    assert IndexOfSubstring(str, "id") == 1;
    var bar := 3 + |digits|;
    assert str[bar] == '|';
    IntToStringFree(n, '|');
    assert str[..bar] == "[id" + digits;
    assert '|' !in str[..bar];
    assert IndexOf(str, '|') == bar;
    assert str[3..bar] == digits;
    TryParseIntToString(n, MinInt32, MaxInt32);
  }

  /** A mention whose "id" comes after the '|' makes the code throw. */
  lemma MentionWithIdAfterBarThrows()
    ensures DomainStringToLong("[club|id]") == Throws
  {
    var str := "[club|id]";
    assert OccursAt(str, "id", 6);
    assert !OccursAt(str, "id", 5) by { assert str[5] == '|'; }
    assert !OccursAt(str, "id", 4) by { assert str[4] == 'b'; }
    assert !OccursAt(str, "id", 3) by { assert str[3] == 'u'; }
    assert !OccursAt(str, "id", 2) by { assert str[2] == 'l'; }
    assert !OccursAt(str, "id", 1) by { assert str[1] == 'c'; }
    assert !OccursAt(str, "id", 0) by { assert str[0] == '['; }
    assert FindFrom(str, "id", 6) == 6;
    assert FindFrom(str, "id", 5) == 6;
    assert FindFrom(str, "id", 4) == 6;
    assert FindFrom(str, "id", 3) == 6;
    assert FindFrom(str, "id", 2) == 6;
    assert FindFrom(str, "id", 1) == 6;
    assert IndexOfSubstring(str, "id") == 6;
    assert str[5] == '|' && str[..5] == "[club";
    assert IndexOf(str, '|') == 5;
    assert MentionShaped(str) && IndexOfSubstring(str, "id") > IndexOf(str, '|');
  }

  // ---------------------------------------------------------------------
  // ToForwardString
  // ---------------------------------------------------------------------

  /** The literal text of one part of the object: `"is_reply":` with its value and the ids key. */
  function ReplyField(isReply: bool): string
  {
    "\"is_reply\":" + (if isReply then "true" else "false") + ",\"conversation_message_ids\":"
  }

  function ForwardHeader(peerId: int, isReply: bool): string
  {
    "{\"peer_id\":" + IntToString(peerId) + "," + ReplyField(isReply)
  }

  /**
   * The forward object: ids comma-separated inside brackets.  For an empty
   * list the final `Remove` deletes the '[' instead of a comma, so the text
   * ends in `:]}`.
   */
  function ForwardString(peerId: int, ids: seq<int>, isReply: bool): string
  {
    ForwardHeader(peerId, isReply)
    + (if ids == [] then "" else "[" + Join(Rendered(ids), ','))
    + "]}"
  }

  lemma HeaderAppends(peerId: int, isReply: bool)
    ensures "{\"peer_id\":" + IntToString(peerId) + "," + ReplyField(isReply) + "["
         == ForwardHeader(peerId, isReply) + "["
  {
  }

  /** `Parser.ToForwardString`, as the `StringBuilder` loop builds it. */
  method ToForwardString(peerId: int, ids: seq<int>, isReply: bool) returns (r: string)
    ensures r == ForwardString(peerId, ids, isReply)
  {
    var sb := "{\"peer_id\":" + IntToString(peerId) + ",";
    sb := sb + ReplyField(isReply) + "[";
    ghost var head := ForwardHeader(peerId, isReply);
    assert sb == head + "[" by { HeaderAppends(peerId, isReply); }
    sb := AppendIds(sb, ids, head);
    var trimmed := RemoveLast(sb, head, ids);
    r := trimmed + "]}";
  }

  /** The `foreach` of `ToForwardString`: every id followed by a comma. */
  method AppendIds(sb0: string, ids: seq<int>, ghost head: string) returns (sb: string)
    requires sb0 == head + "["
    ensures sb == head + "[" + Terminated(Rendered(ids), ',')
  {
    sb := sb0;
    for k := 0 to |ids|
      invariant sb == head + "[" + Terminated(Rendered(ids[..k]), ',')
    {
      TerminatedRenderedStep(ids, k);
      sb := sb + IntToString(ids[k]) + ",";
    }
    assert ids[..|ids|] == ids;
  }

  /** `sb.Remove(sb.Length - 1, 1)` after the loop: the last comma, or the '[' when no id was written. */
  method RemoveLast(sb: string, ghost head: string, ghost ids: seq<int>) returns (r: string)
    requires sb == head + "[" + Terminated(Rendered(ids), ',')
    ensures r == head + (if ids == [] then "" else "[" + Join(Rendered(ids), ','))
  {
    if ids != [] {
      TerminatedJoin(Rendered(ids), ',');
      assert sb == (head + "[" + Join(Rendered(ids), ',')) + [','];
    } else {
      assert sb == head + "[";
    }
    r := sb[..|sb| - 1];
  }

  lemma HeaderSplit(p: int, b: bool, s: string)
    ensures ForwardHeader(p, b) + s == "{\"peer_id\":" + (IntToString(p) + [','] + (ReplyField(b) + s))
  {
  }

  lemma ReplyFieldInjective(b1: bool, b2: bool, s: string, t: string)
    requires ReplyField(b1) + s == ReplyField(b2) + t
    ensures b1 == b2 && s == t
  {
    assert (ReplyField(b1) + s)[11] == (if b1 then 't' else 'f');
    assert (ReplyField(b2) + t)[11] == (if b2 then 't' else 'f');
    DropPrefix(ReplyField(b1), s, t);
  }

  lemma HeaderInjective(p1: int, b1: bool, p2: int, b2: bool, s: string, t: string)
    requires ForwardHeader(p1, b1) + s == ForwardHeader(p2, b2) + t
    ensures p1 == p2 && b1 == b2 && s == t
  {
    var tail1, tail2 := ReplyField(b1) + s, ReplyField(b2) + t;
    HeaderSplit(p1, b1, s);
    HeaderSplit(p2, b2, t);
    DropPrefix("{\"peer_id\":", IntToString(p1) + [','] + tail1, IntToString(p2) + [','] + tail2);
    IntPrefixCancel(p1, p2, ',', tail1, tail2);
    ReplyFieldInjective(b1, b2, s, t);
  }

  /** Pieces that are all renderings of integers. */
  lemma RenderedInjective(a: seq<int>, b: seq<int>)
    requires |a| >= 1 && |b| >= 1
    requires Join(Rendered(a), ',') == Join(Rendered(b), ',')
    ensures a == b
  {
    forall k | 0 <= k < |a| ensures ',' !in Rendered(a)[k] {
      IntToStringFree(a[k], ',');
    }
    forall k | 0 <= k < |b| ensures ',' !in Rendered(b)[k] {
      IntToStringFree(b[k], ',');
    }
    SplitJoin(Rendered(a), ',');
    SplitJoin(Rendered(b), ',');
    assert Rendered(a) == Rendered(b);
    forall k | 0 <= k < |a| ensures a[k] == b[k] {
      assert Rendered(a)[k] == Rendered(b)[k];
      IntToStringInjective(a[k], b[k]);
    }
  }

  /**
   * Nothing is lost in the forward object: equal texts come from the same
   * peer, the same reply flag and the same id list.
   */
  lemma ForwardStringInjective(p1: int, ids1: seq<int>, b1: bool, p2: int, ids2: seq<int>, b2: bool)
    requires ForwardString(p1, ids1, b1) == ForwardString(p2, ids2, b2)
    ensures p1 == p2 && b1 == b2 && ids1 == ids2
  {
    var s := (if ids1 == [] then "" else "[" + Join(Rendered(ids1), ',')) + "]}";
    var t := (if ids2 == [] then "" else "[" + Join(Rendered(ids2), ',')) + "]}";
    assert ForwardString(p1, ids1, b1) == ForwardHeader(p1, b1) + s;
    assert ForwardString(p2, ids2, b2) == ForwardHeader(p2, b2) + t;
    HeaderInjective(p1, b1, p2, b2, s, t);
    assert s[0] == (if ids1 == [] then ']' else '[');
    assert t[0] == (if ids2 == [] then ']' else '[');
    if ids1 != [] {
      var j1, j2 := Join(Rendered(ids1), ','), Join(Rendered(ids2), ',');
      assert s == "[" + j1 + "]}" && t == "[" + j2 + "]}";
      assert j1 == s[1..|s| - 2] && j2 == t[1..|t| - 2];
      RenderedInjective(ids1, ids2);
    }
  }

  /** The shape the handlers use: one id, `is_reply` true. */
  lemma SingleReplyForward(peerId: int, msgId: int)
    ensures ForwardString(peerId, [msgId], true)
         == ForwardHeader(peerId, true) + "[" + IntToString(msgId) + "]}"
  {
    assert Rendered([msgId]) == [IntToString(msgId)];
  }

  /** The empty list loses its '[': the text ends in `:]}`. */
  lemma EmptyForward(peerId: int, isReply: bool)
    ensures ForwardString(peerId, [], isReply) == ForwardHeader(peerId, isReply) + "]}"
    ensures ForwardString(peerId, [], isReply)[|ForwardString(peerId, [], isReply)| - 3..] == ":]}"
  {
    var h := ForwardHeader(peerId, isReply);
    assert h[|h| - 1] == ':';
    assert (h + "]}")[|h| - 1..] == ":]}";
  }
}
