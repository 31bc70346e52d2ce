/**
 * The request builders of the VK API client (`VkClient`): the query
 * string, the list values, the percent-escaping and key order of
 * `messages.send`, the batching of `execute` calls and the VKScript
 * snippets those batches are made of.  The HTTP call itself is not
 * modelled; each builder returns the text it would send.
 */
module VkApi {
  import opened Text

  /** Peer ids above this one are group chats (`VkClient.const_peer_id`). */
  const ConstPeerId: int := 2000000000

  // ---------------------------------------------------------------------
  // Query strings
  // ---------------------------------------------------------------------

  /** A `Dictionary<string, string>` as it enumerates: entries in insertion order. */
  type Query = seq<(string, string)>

  function Keys(q: Query): (r: seq<string>)
    ensures |r| == |q|
  {
    seq(|q|, k requires 0 <= k < |q| => q[k].0)
  }

  /** The first value stored under `key`, if any. */
  function Lookup(q: Query, key: string): Option<string>
  {
    if q == [] then None else if q[0].0 == key then Some(q[0].1) else Lookup(q[1..], key)
  }

  /** The `key=value` pieces of a query, in order. */
  function Pairs(q: Query): (r: seq<string>)
    ensures |r| == |q|
  {
    seq(|q|, k requires 0 <= k < |q| => q[k].0 + "=" + q[k].1)
  }

  /**
   * What `DictToQuery` returns: `?k1=v1&k2=v2...` with no trailing '&'.
   * For an empty dictionary the final `Remove` deletes the '?' itself.
   */
  function QueryString(q: Query): (r: string)
    ensures r == "" <==> q == []
    ensures r != "" ==> r[0] == '?'
  {
    if q == [] then "" else "?" + Join(Pairs(q), '&')
  }

  lemma PairsStep(q: Query, k: nat)
    requires k < |q|
    ensures Terminated(Pairs(q[..k + 1]), '&') == Terminated(Pairs(q[..k]), '&') + (q[k].0 + "=" + q[k].1) + "&"
  {
    var parts := Pairs(q[..k + 1]);
    assert parts[..|parts| - 1] == Pairs(q[..k]);
  }

  /** Removing the last character of `?` and the terminated pieces. */
  lemma DropLastSeparator(parts: seq<string>, sep: char)
    ensures var b := "?" + Terminated(parts, sep);
      |b| >= 1 && b[..|b| - 1] == if parts == [] then "" else "?" + Join(parts, sep)
  {
    if parts != [] {
      TerminatedJoin(parts, sep);
      var b := "?" + Terminated(parts, sep);
      assert b == ("?" + Join(parts, sep)) + [sep];
    }
  }

  /** `VkClient.DictToQuery`, as the `StringBuilder` loop builds it. */
  method DictToQuery(dict: Query) returns (r: string)
    ensures r == QueryString(dict)
  {
    var builder := "?";
    for k := 0 to |dict|
      invariant builder == "?" + Terminated(Pairs(dict[..k]), '&')
    {
      PairsStep(dict, k);
      builder := builder + dict[k].0 + "=" + dict[k].1 + "&";
    }
    assert dict[..|dict|] == dict;
    DropLastSeparator(Pairs(dict), '&');
    r := builder[..|builder| - 1];
  }

  /** The key and the value of one `key=value` piece: everything around the first '='. */
  function SplitPair(p: string): (string, string)
  {
    var i := IndexOf(p, '=');
    if i == -1 then (p, "") else (p[..i], p[i + 1..])
  }

  /** How a receiver reads a query string back: drop the '?', split on '&', split each piece at its first '='. */
  function ParseQuery(s: string): (q: Query)
  {
    if s == "" then []
    else
      var pieces := Split(s[1..], '&');
      seq(|pieces|, k requires 0 <= k < |pieces| => SplitPair(pieces[k]))
  }

  /** Keys without '=' or '&', values without '&': the entries a query string can carry unchanged. */
  predicate Plain(q: Query)
  {
    forall k :: 0 <= k < |q| ==> '=' !in q[k].0 && '&' !in q[k].0 && '&' !in q[k].1
  }

  lemma SplitPairOf(key: string, value: string)
    requires '=' !in key
    ensures SplitPair(key + "=" + value) == (key, value)
  {
    var p := key + "=" + value;
    IndexOfAfterFree(key, '=', value);
    assert p[..|key|] == key;
    assert p[|key| + 1..] == value;
  }

  /** Round trip: a query string of plain entries reads back as exactly those entries, in order. */
  lemma QueryRoundTrip(q: Query)
    requires Plain(q)
    ensures ParseQuery(QueryString(q)) == q
  {
    if q != [] {
      var parts := Pairs(q);
      forall k | 0 <= k < |parts|
        ensures '&' !in parts[k]
      {
        assert parts[k] == q[k].0 + "=" + q[k].1;
      }
      SplitJoin(parts, '&');
      var s := QueryString(q);
      assert s[1..] == Join(parts, '&');
      var r := ParseQuery(s);
      assert |r| == |q|;
      forall k | 0 <= k < |q|
        ensures r[k] == q[k]
      {
        SplitPairOf(q[k].0, q[k].1);
      }
    }
  }

  // ---------------------------------------------------------------------
  // List values
  // ---------------------------------------------------------------------

  /** `VkClient.ListToQueryValue` over a list of longs: every id followed by a comma. */
  method ListToQueryValue(list: seq<int>) returns (r: string)
    ensures r == Terminated(Rendered(list), ',')
  {
    r := "";
    for k := 0 to |list|
      invariant r == Terminated(Rendered(list[..k]), ',')
    {
      TerminatedRenderedStep(list, k);
      r := r + IntToString(list[k]) + ",";
    }
    assert list[..|list|] == list;
  }

  /**
   * Splitting a list value on ',' gives every rendered id and one empty
   * piece after the trailing comma, and each id parses back as a long.
   */
  lemma ListValueRoundTrip(list: seq<int>)
    ensures Split(Terminated(Rendered(list), ','), ',') == Rendered(list) + [""]
    ensures (forall k :: 0 <= k < |list| ==> MinInt64 <= list[k] <= MaxInt64) ==>
      forall k :: 0 <= k < |list| ==>
        TryParse(Split(Terminated(Rendered(list), ','), ',')[k], MinInt64, MaxInt64) == Some(list[k])
  {
    var parts := Rendered(list);
    if list == [] {
      assert Terminated(parts, ',') == "";
    } else {
      TerminatedJoin(parts, ',');
      JoinAppend(parts, "", ',');
      assert Join(parts, ',') + [','] + "" == Join(parts, ',') + [','];
      forall k | 0 <= k < |parts + [""]|
        ensures ',' !in (parts + [""])[k]
      {
        if k < |parts| {
          IntToStringFree(list[k], ',');
        }
      }
      SplitJoin(parts + [""], ',');
    }
    forall k | 0 <= k < |list| && MinInt64 <= list[k] <= MaxInt64
      ensures TryParse((parts + [""])[k], MinInt64, MaxInt64) == Some(list[k])
    {
      TryParseIntToString(list[k], MinInt64, MaxInt64);
    }
  }

  // ---------------------------------------------------------------------
  // Percent-escaping of a message
  // ---------------------------------------------------------------------

  /** The characters `MessagesSendAsync` escapes in a message's text. */
  const Replacement: string := "?#%&+-*"

  /** One character of the message: '%' and its code in upper-case hex, or the character itself. */
  function EscapeChar(c: char): string
  {
    if c in Replacement then "%" + Hex(c as int) else [c]
  }

  function Escape(s: string): string
  {
    if s == [] then "" else EscapeChar(s[0]) + Escape(s[1..])
  }

  lemma {:induction false} EscapeAppend(s: string, c: char)
    ensures Escape(s + [c]) == Escape(s) + EscapeChar(c)
  {
    if s != [] {
      assert (s + [c])[1..] == s[1..] + [c];
      EscapeAppend(s[1..], c);
    } else {
      assert [c][1..] == [];
    }
  }

  /** The escaping loop of `MessagesSendAsync`, character by character. */
  method EscapeMessage(message: string) returns (r: string)
    ensures r == Escape(message)
  {
    r := "";
    for i := 0 to |message|
      invariant r == Escape(message[..i])
    {
      assert message[..i + 1] == message[..i] + [message[i]];
      EscapeAppend(message[..i], message[i]);
      if message[i] in Replacement {
        r := r + "%" + Hex(message[i] as int);
      } else {
        r := r + [message[i]];
      }
    }
    assert message[..|message|] == message;
  }

  /** Percent-decoding: `%HH` stands for the character with code `HH`; everything else is itself. */
  function Unescape(s: string): string
    decreases |s|
  {
    if s == [] then ""
    else if s[0] == '%' && |s| >= 3 && HexValue(s[1]).Some? && HexValue(s[2]).Some? then
      [(HexValue(s[1]).value * 16 + HexValue(s[2]).value) as char] + Unescape(s[3..])
    else [s[0]] + Unescape(s[1..])
  }

  lemma UnescapeChar(c: char, rest: string)
    ensures Unescape(EscapeChar(c) + rest) == [c] + Unescape(rest)
  {
    var e := EscapeChar(c) + rest;
    if c in Replacement {
      var n := c as int;
      assert 16 <= n < 256;
      HexByte(n);
      assert e[1] == Hex(n)[0] && e[2] == Hex(n)[1];
      assert e[3..] == rest;
      assert (n / 16 * 16 + n % 16) as char == c;
    } else {
      assert e[0] == c && e[1..] == rest;
    }
  }

  /** Round trip: decoding an escaped message gives back the message. */
  lemma {:induction false} UnescapeEscape(s: string)
    ensures Unescape(Escape(s)) == s
  {
    if s != [] {
      UnescapeChar(s[0], Escape(s[1..]));
      UnescapeEscape(s[1..]);
    }
  }

  /** At index k of e stands '%' followed by two hex digits that decode to a character of `Replacement`. */
  predicate EscapeAt(e: string, k: int)
    requires 0 <= k
  {
    && k + 2 < |e| && e[k] == '%'
    && HexValue(e[k + 1]).Some? && HexValue(e[k + 2]).Some?
    && (HexValue(e[k + 1]).value * 16 + HexValue(e[k + 2]).value) as char in Replacement
  }

  lemma EscapeAtShift(e: string, rest: string, k: nat)
    requires EscapeAt(rest, k)
    ensures EscapeAt(e + rest, |e| + k)
  {
    var r := e + rest;
    assert r[|e| + k] == rest[k] && r[|e| + k + 1] == rest[k + 1] && r[|e| + k + 2] == rest[k + 2];
  }

  /**
   * An escaped message holds no character of `?#&+-*`, and every '%' in it
   * starts an escape: two hex digits of a character of `Replacement`.
   */
  lemma {:induction false} EscapeIsQuerySafe(s: string)
    ensures forall k :: 0 <= k < |Escape(s)| ==> Escape(s)[k] == '%' || Escape(s)[k] !in Replacement
    ensures forall k :: 0 <= k < |Escape(s)| && Escape(s)[k] == '%' ==> EscapeAt(Escape(s), k)
  {
    if s != [] {
      EscapeIsQuerySafe(s[1..]);
      var e := EscapeChar(s[0]);
      var rest := Escape(s[1..]);
      var r := Escape(s);
      assert r == e + rest;
      if s[0] in Replacement {
        var n := s[0] as int;
        HexByte(n);
        assert (n / 16 * 16 + n % 16) as char == s[0];
        assert r[1] == Hex(n)[0] && r[2] == Hex(n)[1];
        assert EscapeAt(r, 0);
      }
      assert forall k :: 0 <= k < |e| ==> e[k] == '%' || e[k] !in Replacement;
      forall k | 0 <= k < |r|
        ensures r[k] == '%' || r[k] !in Replacement
        ensures r[k] == '%' ==> EscapeAt(r, k)
      {
        if k >= |e| {
          assert r[k] == rest[k - |e|];
          if r[k] == '%' {
            EscapeAtShift(e, rest, k - |e|);
          }
        } else {
          assert r[k] == e[k];
        }
      }
    }
  }

  /** An example, not a property: `1+1?` goes out as `1%2B1%3F`. */
  lemma EscapeExample()
    ensures Escape("1+1?") == "1%2B1%3F"
  {
    HexByte('+' as int);
    HexByte('?' as int);
  }

  // ---------------------------------------------------------------------
  // messages.send
  // ---------------------------------------------------------------------

  /** `GetMethodAsync` adds the credentials after the method's own parameters. */
  function WithCredentials(q: Query, accessToken: string, version: string): (r: Query)
    ensures |r| == |q| + 2 && r[..|q|] == q
    ensures r[|q|] == ("access_token", accessToken) && r[|q| + 1] == ("v", version)
  {
    q + [("access_token", accessToken), ("v", version)]
  }

  function Optional(key: string, value: Option<string>): Query
  {
    if value.Some? then [(key, value.value)] else []
  }

  function OptionalKey(key: string, value: Option<string>): seq<string>
  {
    if value.Some? then [key] else []
  }

  /**
   * The parameters `MessagesSendAsync` puts in its dictionary.  A
   * `randomId` of 0 is replaced by `draw`, the value `new Random().Next()`
   * would return.
   */
  function SendParameters(peerId: int, message: Option<string>, forward: Option<string>,
                          attachment: Option<string>, disableMentions: int,
                          randomId: int, draw: int): (q: Query)
    ensures Keys(q) == ["peer_id"] + OptionalKey("message", message) + OptionalKey("forward", forward)
                       + OptionalKey("attachment", attachment) + ["disable_mentions", "random_id"]
    ensures q[0] == ("peer_id", IntToString(peerId))
    ensures message.Some? ==> q[1] == ("message", Escape(message.value))
    ensures q[|q| - 2] == ("disable_mentions", IntToString(disableMentions))
    ensures q[|q| - 1] == ("random_id", IntToString(if randomId == 0 then draw else randomId))
  {
    var m := if message.Some? then Some(Escape(message.value)) else None;
    var q := [("peer_id", IntToString(peerId))] + Optional("message", m) + Optional("forward", forward)
      + Optional("attachment", attachment)
      + [("disable_mentions", IntToString(disableMentions)),
         ("random_id", IntToString(if randomId == 0 then draw else randomId))];
    assert Keys(q) == ["peer_id"] + OptionalKey("message", message) + OptionalKey("forward", forward)
                      + OptionalKey("attachment", attachment) + ["disable_mentions", "random_id"];
    q
  }

  /**
   * `MessagesSendAsync` up to the network call: the query string of the
   * `messages.send` request, escape loop and credentials included.
   */
  method MessagesSendQuery(peerId: int, message: Option<string>, forward: Option<string>,
                           attachment: Option<string>, disableMentions: int, randomId: int,
                           draw: int, accessToken: string, version: string) returns (query: string)
    ensures query == QueryString(WithCredentials(
      SendParameters(peerId, message, forward, attachment, disableMentions, randomId, draw),
      accessToken, version))
  {
    var rid := randomId;
    if rid == 0 {
      rid := draw;
    }
    ghost var escaped := if message.Some? then Some(Escape(message.value)) else None;
    var dict: Query := [("peer_id", IntToString(peerId))];
    if message.Some? {
      var e := EscapeMessage(message.value);
      dict := dict + [("message", e)];
    }
    assert dict == [("peer_id", IntToString(peerId))] + Optional("message", escaped);
    if forward.Some? {
      dict := dict + [("forward", forward.value)];
    }
    if attachment.Some? {
      dict := dict + [("attachment", attachment.value)];
    }
    assert dict == [("peer_id", IntToString(peerId))] + Optional("message", escaped)
      + Optional("forward", forward) + Optional("attachment", attachment);
    dict := dict + [("disable_mentions", IntToString(disableMentions))];
    dict := dict + [("random_id", IntToString(rid))];
    assert dict == SendParameters(peerId, message, forward, attachment, disableMentions, randomId, draw);
    dict := dict + [("access_token", accessToken)];
    dict := dict + [("v", version)];
    assert dict == WithCredentials(
      SendParameters(peerId, message, forward, attachment, disableMentions, randomId, draw),
      accessToken, version);
    query := DictToQuery(dict);
  }

  function NoAmpersand(value: Option<string>): bool
  {
    value.None? || '&' !in value.value
  }

  lemma PlainAppend(a: Query, b: Query)
    requires Plain(a) && Plain(b)
    ensures Plain(a + b)
  {
    forall k | 0 <= k < |a + b|
      ensures '=' !in (a + b)[k].0 && '&' !in (a + b)[k].0 && '&' !in (a + b)[k].1
    {
      if k >= |a| {
        assert (a + b)[k] == b[k - |a|];
      }
    }
  }

  /** An escaped message holds no '&'. */
  lemma EscapeHasNoAmpersand(message: string)
    ensures '&' !in Escape(message)
  {
    EscapeIsQuerySafe(message);
    var e := Escape(message);
    forall k | 0 <= k < |e|
      ensures e[k] != '&'
    {
      assert e[k] == '%' || e[k] !in Replacement;
    }
  }

  lemma PlainOptional(key: string, value: Option<string>)
    requires '=' !in key && '&' !in key && NoAmpersand(value)
    ensures Plain(Optional(key, value))
  {
  }

  /** The `messages.send` parameters as a run of optional entries. */
  lemma SendParametersParts(peerId: int, message: Option<string>, forward: Option<string>,
                            attachment: Option<string>, disableMentions: int, randomId: int, draw: int)
    ensures SendParameters(peerId, message, forward, attachment, disableMentions, randomId, draw)
         == Optional("peer_id", Some(IntToString(peerId)))
          + Optional("message", if message.Some? then Some(Escape(message.value)) else None)
          + Optional("forward", forward) + Optional("attachment", attachment)
          + Optional("disable_mentions", Some(IntToString(disableMentions)))
          + Optional("random_id", Some(IntToString(if randomId == 0 then draw else randomId)))
  {
  }

  lemma PlainConcat(a: Query, b: Query, c: Query, d: Query, e: Query, f: Query)
    requires Plain(a) && Plain(b) && Plain(c) && Plain(d) && Plain(e) && Plain(f)
    ensures Plain(a + b + c + d + e + f)
  {
    PlainAppend(a, b);
    PlainAppend(a + b, c);
    PlainAppend(a + b + c, d);
    PlainAppend(a + b + c + d, e);
    PlainAppend(a + b + c + d + e, f);
  }

  /** With free-text values free of '&', every parameter of a `messages.send` is plain. */
  lemma SendParametersPlain(peerId: int, message: Option<string>, forward: Option<string>,
                            attachment: Option<string>, disableMentions: int, randomId: int, draw: int)
    requires NoAmpersand(forward) && NoAmpersand(attachment)
    ensures Plain(SendParameters(peerId, message, forward, attachment, disableMentions, randomId, draw))
  {
    var m := if message.Some? then Some(Escape(message.value)) else None;
    if message.Some? {
      EscapeHasNoAmpersand(message.value);
    }
    var rid := if randomId == 0 then draw else randomId;
    IntToStringFree(peerId, '&');
    IntToStringFree(disableMentions, '&');
    IntToStringFree(rid, '&');
    PlainOptional("peer_id", Some(IntToString(peerId)));
    PlainOptional("message", m);
    PlainOptional("forward", forward);
    PlainOptional("attachment", attachment);
    PlainOptional("disable_mentions", Some(IntToString(disableMentions)));
    PlainOptional("random_id", Some(IntToString(rid)));
    PlainConcat(Optional("peer_id", Some(IntToString(peerId))), Optional("message", m),
                Optional("forward", forward), Optional("attachment", attachment),
                Optional("disable_mentions", Some(IntToString(disableMentions))),
                Optional("random_id", Some(IntToString(rid))));
    SendParametersParts(peerId, message, forward, attachment, disableMentions, randomId, draw);
  }

  /** And so is the whole query once the credentials, also free of '&', are added. */
  lemma SendQueryPlain(peerId: int, message: Option<string>, forward: Option<string>,
                       attachment: Option<string>, disableMentions: int, randomId: int,
                       draw: int, accessToken: string, version: string)
    requires NoAmpersand(forward) && NoAmpersand(attachment)
    requires '&' !in accessToken && '&' !in version
    ensures Plain(WithCredentials(
      SendParameters(peerId, message, forward, attachment, disableMentions, randomId, draw),
      accessToken, version))
  {
    SendParametersPlain(peerId, message, forward, attachment, disableMentions, randomId, draw);
    var p := SendParameters(peerId, message, forward, attachment, disableMentions, randomId, draw);
    var credentials := [("access_token", accessToken), ("v", version)];
    assert Plain(credentials);
    PlainAppend(p, credentials);
    assert WithCredentials(p, accessToken, version) == p + credentials;
  }

  /**
   * Whatever the message says, a receiver that parses the query string
   * and percent-decodes the `message` value reads the message back,
   * provided the other free-text values hold no '&'.
   */
  lemma MessageReadBack(peerId: int, message: string, forward: Option<string>,
                        attachment: Option<string>, disableMentions: int, randomId: int,
                        draw: int, accessToken: string, version: string)
    requires NoAmpersand(forward) && NoAmpersand(attachment)
    requires '&' !in accessToken && '&' !in version
    ensures var q := WithCredentials(
        SendParameters(peerId, Some(message), forward, attachment, disableMentions, randomId, draw),
        accessToken, version);
      && ParseQuery(QueryString(q)) == q
      && q[1].0 == "message" && Unescape(q[1].1) == message
  {
    SendQueryPlain(peerId, Some(message), forward, attachment, disableMentions, randomId, draw, accessToken, version);
    var q := WithCredentials(
        SendParameters(peerId, Some(message), forward, attachment, disableMentions, randomId, draw),
        accessToken, version);
    QueryRoundTrip(q);
    UnescapeEscape(message);
  }

  // ---------------------------------------------------------------------
  // Batching of execute calls
  // ---------------------------------------------------------------------

  /**
   * One `IExecuteCode` object: its identity (what the reference
   * comparison `code == codes.Last()` compares) and the snippet its
   * `ToCode` returns.  `MessageExecuteCode.ToCode` draws a new `random_id`
   * on every call; `text` is the snippet of the one call `ExecuteAsync`
   * makes per code, with the drawn value already in it.
   */
  datatype Code = Code(ref: nat, text: string)

  /** The snippets of some codes, concatenated in order. */
  function Texts(codes: seq<Code>): string
  {
    if codes == [] then "" else Texts(codes[..|codes| - 1]) + codes[|codes| - 1].text
  }

  /** Position of the first code that is the object `last`, or the length if none is. */
  function FirstIs(codes: seq<Code>, last: nat): (i: nat)
    ensures i <= |codes|
  {
    if codes == [] then 0
    else if codes[0].ref == last then 0
    else 1 + FirstIs(codes[1..], last)
  }

  /** `FirstIs` finds the first occurrence of `last`. */
  lemma {:induction false} FirstIsFirst(codes: seq<Code>, last: nat)
    ensures forall k :: 0 <= k < FirstIs(codes, last) ==> codes[k].ref != last
    ensures FirstIs(codes, last) < |codes| ==> codes[FirstIs(codes, last)].ref == last
  {
    if codes != [] && codes[0].ref != last {
      FirstIsFirst(codes[1..], last);
      forall k | 0 <= k < FirstIs(codes, last)
        ensures codes[k].ref != last
      {
        if k > 0 {
          assert codes[k] == codes[1..][k - 1];
        }
      }
    }
  }

  /** Length of the next batch: 25 codes, or fewer when the object `last` comes first. */
  function Cut(codes: seq<Code>, last: nat): (c: nat)
    ensures codes != [] ==> 1 <= c
    ensures c <= |codes| && c <= 25
  {
    var f := FirstIs(codes, last) + 1;
    if |codes| <= 25 && |codes| <= f then |codes| else if 25 <= f then 25 else f
  }

  /** The batches `ExecuteAsync` sends: each closes after 25 codes or at an occurrence of `last`. */
  function Batches(codes: seq<Code>, last: nat): (bs: seq<seq<Code>>)
    decreases |codes|
  {
    if codes == [] then [] else [codes[..Cut(codes, last)]] + Batches(codes[Cut(codes, last)..], last)
  }

  function BatchTexts(bs: seq<seq<Code>>): (r: seq<string>)
    ensures |r| == |bs|
  {
    if bs == [] then [] else [Texts(bs[0])] + BatchTexts(bs[1..])
  }

  function Flatten(bs: seq<seq<Code>>): seq<Code>
  {
    if bs == [] then [] else bs[0] + Flatten(bs[1..])
  }

  function Concat(parts: seq<string>): string
  {
    if parts == [] then "" else parts[0] + Concat(parts[1..])
  }

  lemma {:induction false} TextsAppend(a: seq<Code>, b: seq<Code>)
    ensures Texts(a + b) == Texts(a) + Texts(b)
    decreases |b|
  {
    if b == [] {
      assert a + b == a;
    } else {
      var b0 := b[..|b| - 1];
      assert (a + b)[..|a + b| - 1] == a + b0;
      TextsAppend(a, b0);
    }
  }

  /** Batching loses nothing and reorders nothing. */
  lemma {:induction false} BatchesFlatten(codes: seq<Code>, last: nat)
    ensures Flatten(Batches(codes, last)) == codes
    decreases |codes|
  {
    if codes != [] {
      var c := Cut(codes, last);
      BatchesFlatten(codes[c..], last);
      assert codes[..c] + codes[c..] == codes;
    }
  }

  /** So the `execute` requests, one after the other, carry every snippet once and in order. */
  lemma {:induction false} BatchesTexts(codes: seq<Code>, last: nat)
    ensures Concat(BatchTexts(Batches(codes, last))) == Texts(codes)
    decreases |codes|
  {
    if codes != [] {
      var c := Cut(codes, last);
      var rest := codes[c..];
      BatchesTexts(rest, last);
      var bs := Batches(codes, last);
      assert BatchTexts(bs)[1..] == BatchTexts(Batches(rest, last));
      TextsAppend(codes[..c], rest);
      assert codes[..c] + rest == codes;
    }
  }

  /** No batch is empty, and none holds more than 25 codes. */
  lemma {:induction false} BatchesBounded(codes: seq<Code>, last: nat)
    ensures forall j :: 0 <= j < |Batches(codes, last)| ==> 1 <= |Batches(codes, last)[j]| <= 25
    decreases |codes|
  {
    if codes != [] {
      BatchesBounded(codes[Cut(codes, last)..], last);
    }
  }

  predicate DistinctRefs(codes: seq<Code>)
  {
    forall i, j :: 0 <= i < j < |codes| ==> codes[i].ref != codes[j].ref
  }

  /**
   * When every code is a different object, `ExecuteAsync` sends
   * ceil(n / 25) batches, all of 25 codes but the last.
   */
  lemma {:induction false} DistinctBatches(codes: seq<Code>)
    requires codes != [] && DistinctRefs(codes)
    ensures var bs := Batches(codes, codes[|codes| - 1].ref);
      && |bs| == (|codes| + 24) / 25
      && forall j :: 0 <= j < |bs| - 1 ==> |bs[j]| == 25
    decreases |codes|
  {
    var last := codes[|codes| - 1].ref;
    FirstIsFirst(codes, last);
    assert FirstIs(codes, last) == |codes| - 1;
    if |codes| > 25 {
      var rest := codes[25..];
      assert rest[|rest| - 1] == codes[|codes| - 1];
      assert DistinctRefs(rest) by {
        forall i, j | 0 <= i < j < |rest|
          ensures rest[i].ref != rest[j].ref
        {
          assert rest[i] == codes[25 + i] && rest[j] == codes[25 + j];
        }
      }
      DistinctBatches(rest);
      assert Batches(codes, last) == [codes[..25]] + Batches(rest, last);
    } else {
      assert Cut(codes, last) == |codes|;
      assert codes[..|codes|] == codes && codes[|codes|..] == [];
      assert Batches(codes, last) == [codes] + Batches([], last);
    }
  }

  /** Reference equality: an object queued twice as the last also closes a batch earlier. */
  lemma RepeatedLastObject(a: string, b: string, c: string)
    ensures Batches([Code(1, a), Code(2, b), Code(1, c)], 1) == [[Code(1, a)], [Code(2, b), Code(1, c)]]
  {
    var codes := [Code(1, a), Code(2, b), Code(1, c)];
    var rest := [Code(2, b), Code(1, c)];
    assert FirstIs(codes, 1) == 0 && Cut(codes, 1) == 1;
    assert codes[..1] == [Code(1, a)] && codes[1..] == rest;
    assert FirstIs(rest, 1) == 1 && Cut(rest, 1) == 2;
    assert rest[..2] == rest && rest[2..] == [];
    assert Batches(rest, 1) == [rest] + Batches([], 1);
  }

  /** The loop step: after `j` codes of a batch, the next one closes it exactly when the cut says so. */
  lemma CutStep(s: seq<Code>, j: nat, last: nat)
    requires j < Cut(s, last) && s[|s| - 1].ref == last
    ensures (j + 1 > 24 || s[j].ref == last) <==> j + 1 == Cut(s, last)
  {
    FirstIsFirst(s, last);
    var f := FirstIs(s, last);
    assert f < |s|;
  }

  lemma TextsStep(codes: seq<Code>, start: nat, k: nat)
    requires start <= k < |codes|
    ensures Texts(codes[start..k + 1]) == Texts(codes[start..k]) + codes[k].text
  {
    assert codes[start..k + 1][..k - start] == codes[start..k];
  }

  /** A batch that closes at `k` is the next one `Batches` cuts. */
  lemma FlushStep(codes: seq<Code>, start: nat, k: nat, last: nat)
    requires start <= k < |codes| && k + 1 - start == Cut(codes[start..], last)
    ensures BatchTexts(Batches(codes[start..], last))
         == [Texts(codes[start..k + 1])] + BatchTexts(Batches(codes[k + 1..], last))
  {
    var s := codes[start..];
    assert s[..k + 1 - start] == codes[start..k + 1];
    assert s[k + 1 - start..] == codes[k + 1..];
    assert Batches(s, last) == [codes[start..k + 1]] + Batches(codes[k + 1..], last);
  }

  /**
   * The state of the `ExecuteAsync` loop after `k` codes: the batch in
   * progress started at `start` and `sb` holds its snippets, and the
   * requests already issued followed by those still to come are the
   * batches `Batches` cuts.
   */
  ghost predicate Sent(codes: seq<Code>, last: nat, k: nat, start: nat, sb: string, calls: seq<string>)
  {
    && start <= k <= |codes|
    && sb == Texts(codes[start..k])
    && BatchTexts(Batches(codes, last)) == calls + BatchTexts(Batches(codes[start..], last))
    && (start < |codes| ==> k - start < Cut(codes[start..], last))
    && (start == |codes| ==> k == |codes|)
  }

  lemma SentStart(codes: seq<Code>, last: nat)
    requires codes != []
    ensures Sent(codes, last, 0, 0, "", [])
  {
    assert codes[0..] == codes;
    assert codes[0..0] == [];
  }

  /** One turn of the loop: append the next snippet, and issue the batch when it is complete. */
  lemma SentStep(codes: seq<Code>, last: nat, k: nat, start: nat, sb: string, calls: seq<string>)
    requires k < |codes| && last == codes[|codes| - 1].ref
    requires Sent(codes, last, k, start, sb, calls)
    ensures k + 1 - start > 24 || codes[k].ref == last ==>
      Sent(codes, last, k + 1, k + 1, "", calls + [sb + codes[k].text])
    ensures !(k + 1 - start > 24 || codes[k].ref == last) ==>
      Sent(codes, last, k + 1, start, sb + codes[k].text, calls)
  {
    TextsStep(codes, start, k);
    var s := codes[start..];
    assert s[|s| - 1] == codes[|codes| - 1] && s[k - start] == codes[k];
    CutStep(s, k - start, last);
    if k + 1 - start > 24 || codes[k].ref == last {
      FlushStep(codes, start, k, last);
      var later := BatchTexts(Batches(codes[k + 1..], last));
      assert BatchTexts(Batches(codes, last)) == (calls + [sb + codes[k].text]) + later;
      assert codes[k + 1..k + 1] == [];
    }
  }

  lemma SentEnd(codes: seq<Code>, last: nat, start: nat, sb: string, calls: seq<string>)
    requires Sent(codes, last, |codes|, start, sb, calls)
    ensures calls == BatchTexts(Batches(codes, last))
  {
    assert codes[|codes|..] == [];
  }

  /**
   * `VkClient.ExecuteAsync(List<IExecuteCode>)`: the `code` argument of
   * every `execute` request it issues, in order.  It always returns null.
   */
  method ExecuteAsync(codes: seq<Code>) returns (calls: seq<string>)
    ensures codes == [] ==> calls == []
    ensures codes != [] ==> calls == BatchTexts(Batches(codes, codes[|codes| - 1].ref))
  {
    calls := [];
    if codes == [] {
      return;
    }
    var last := codes[|codes| - 1].ref;
    var i := 0;
    var sb := "";
    ghost var start := 0;
    SentStart(codes, last);
    for k := 0 to |codes|
      invariant i == k - start
      invariant Sent(codes, last, k, start, sb, calls)
    {
      SentStep(codes, last, k, start, sb, calls);
      sb := sb + codes[k].text;
      i := i + 1;
      if i > 24 || codes[k].ref == last {
        i := 0;
        calls := calls + [sb];
        sb := "";
        start := k + 1;
      }
    }
    SentEnd(codes, last, start, sb, calls);
  }

  // ---------------------------------------------------------------------
  // VKScript snippets
  // ---------------------------------------------------------------------

  /** `KickExecuteCode.ToCode`; a comma is left before the closing brace. */
  function KickCode(chatId: int, userId: int): (r: string)
    ensures |r| > 32 && r[..28] == "API.messages.removeChatUser(" && r[|r| - 4..] == ",});"
  {
    "API.messages.removeChatUser({\"chat_id\":" + IntToString(chatId)
    + ",\"user_id\":" + IntToString(userId) + ",});"
  }

  /** `MessageExecuteCode.ToCode` with its random id passed in; the message is inserted as it is. */
  function MessageCode(message: string, peerId: int, randomId: int): (r: string)
    ensures |r| > 22 && r[..18] == "API.messages.send(" && r[|r| - 4..] == "\"});"
  {
    "API.messages.send({\"peer_id\":" + IntToString(peerId)
    + ",\"random_id\":" + IntToString(randomId)
    + ",\"message\":\"" + message + "\"});"
  }

  lemma Assoc5(a: string, x: string, b: string, y: string, c: string)
    ensures a + x + b + y + c == a + (x + (b + (y + c)))
  {
  }

  lemma KickShape(c: int, u: int)
    ensures KickCode(c, u) == "API.messages.removeChatUser({\"chat_id\":"
      + (IntToString(c) + [','] + ("\"user_id\":" + (IntToString(u) + [','] + "});")))
  {
    Assoc5("API.messages.removeChatUser({\"chat_id\":", IntToString(c), ",\"user_id\":", IntToString(u), ",});");
    assert ",\"user_id\":" + (IntToString(u) + ",});")
        == [','] + ("\"user_id\":" + (IntToString(u) + [','] + "});"));
  }

  /** Different kicks give different snippets. */
  lemma KickCodeInjective(c1: int, u1: int, c2: int, u2: int)
    requires KickCode(c1, u1) == KickCode(c2, u2)
    ensures c1 == c2 && u1 == u2
  {
    var head := "API.messages.removeChatUser({\"chat_id\":";
    var t1 := "\"user_id\":" + (IntToString(u1) + [','] + "});");
    var t2 := "\"user_id\":" + (IntToString(u2) + [','] + "});");
    KickShape(c1, u1);
    KickShape(c2, u2);
    DropPrefix(head, IntToString(c1) + [','] + t1, IntToString(c2) + [','] + t2);
    IntPrefixCancel(c1, c2, ',', t1, t2);
    DropPrefix("\"user_id\":", IntToString(u1) + [','] + "});", IntToString(u2) + [','] + "});");
    IntPrefixCancel(u1, u2, ',', "});", "});");
  }

  lemma Assoc7(a: string, x: string, b: string, y: string, c: string, m: string, d: string)
    ensures a + x + b + y + c + m + d == a + (x + (b + (y + (c + (m + d)))))
  {
  }

  lemma CommaFirst(x: string, b: string, rest: string)
    ensures x + (([','] + b) + rest) == x + [','] + (b + rest)
  {
  }

  lemma MessageShape(m: string, p: int, r: int)
    ensures MessageCode(m, p, r) == "API.messages.send({\"peer_id\":"
      + (IntToString(p) + [','] + ("\"random_id\":"
      + (IntToString(r) + [','] + ("\"message\":\"" + (m + "\"});")))))
  {
    var b, c := ",\"random_id\":", ",\"message\":\"";
    Assoc7("API.messages.send({\"peer_id\":", IntToString(p), b, IntToString(r), c, m, "\"});");
    assert b == [','] + "\"random_id\":" && c == [','] + "\"message\":\"";
    CommaFirst(IntToString(r), "\"message\":\"", m + "\"});");
    CommaFirst(IntToString(p), "\"random_id\":", IntToString(r) + (c + (m + "\"});")));
  }

  /** Different messages, peers or random ids give different snippets. */
  lemma MessageCodeInjective(m1: string, p1: int, r1: int, m2: string, p2: int, r2: int)
    requires MessageCode(m1, p1, r1) == MessageCode(m2, p2, r2)
    ensures m1 == m2 && p1 == p2 && r1 == r2
  {
    var head := "API.messages.send({\"peer_id\":";
    var tail := "\"});";
    var t1 := "\"message\":\"" + (m1 + tail);
    var t2 := "\"message\":\"" + (m2 + tail);
    var s1 := "\"random_id\":" + (IntToString(r1) + [','] + t1);
    var s2 := "\"random_id\":" + (IntToString(r2) + [','] + t2);
    MessageShape(m1, p1, r1);
    MessageShape(m2, p2, r2);
    DropPrefix(head, IntToString(p1) + [','] + s1, IntToString(p2) + [','] + s2);
    IntPrefixCancel(p1, p2, ',', s1, s2);
    DropPrefix("\"random_id\":", IntToString(r1) + [','] + t1, IntToString(r2) + [','] + t2);
    IntPrefixCancel(r1, r2, ',', t1, t2);
    DropPrefix("\"message\":\"", m1 + tail, m2 + tail);
    assert m1 == (m1 + tail)[..|m1|];
    assert m2 == (m2 + tail)[..|m2|];
  }
}
