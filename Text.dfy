/**
 * The .NET string and number primitives the bot relies on, stated as
 * functions over `string` (a `seq<char>`): `String.Split(char)`,
 * `String.IndexOf`, `long.ToString()`, `Int32.TryParse`/`Int64.TryParse`
 * with the default `NumberStyles.Integer`, and `int.ToString("X")`.
 */
module Text {

  datatype Option<T> = None | Some(value: T)

  // ---------------------------------------------------------------------
  // Splitting and joining on one separator character
  // ---------------------------------------------------------------------

  /** `s.Split(sep)`: every occurrence of `sep` ends a piece; empty pieces are kept. */
  function Split(s: string, sep: char): (parts: seq<string>)
    ensures |parts| >= 1
    ensures forall k :: 0 <= k < |parts| ==> sep !in parts[k]
    decreases |s|
  {
    if s == [] then [""]
    else
      var rest := Split(s[1..], sep);
      if s[0] == sep then [""] + rest
      else [[s[0]] + rest[0]] + rest[1..]
  }

  /** `String.Join(sep, parts)`. */
  function Join(parts: seq<string>, sep: char): string
  {
    if |parts| == 0 then ""
    else if |parts| == 1 then parts[0]
    else parts[0] + [sep] + Join(parts[1..], sep)
  }

  /** Joining the pieces of a split gives back the string. */
  lemma {:induction false} JoinSplit(s: string, sep: char)
    ensures Join(Split(s, sep), sep) == s
  {
    if s != [] {
      var rest := Split(s[1..], sep);
      JoinSplit(s[1..], sep);
      if s[0] == sep {
        assert ([""] + rest)[1..] == rest;
      } else if |rest| == 1 {
        assert s == [s[0]] + s[1..];
      } else {
        var parts := [[s[0]] + rest[0]] + rest[1..];
        assert parts[1..] == rest[1..];
        assert s == [s[0]] + s[1..];
      }
    }
  }

  /** A separator-free prefix glues onto the first piece of what follows it. */
  lemma {:induction false} SplitFreePrefix(a: string, b: string, sep: char)
    requires sep !in a
    ensures Split(a + b, sep) == [a + Split(b, sep)[0]] + Split(b, sep)[1..]
    decreases |a|
  {
    if a != [] {
      var s := a + b;
      assert s[0] == a[0] && a[0] != sep;
      assert s[1..] == a[1..] + b;
      SplitFreePrefix(a[1..], b, sep);
      var rest := Split(s[1..], sep);
      assert rest == [a[1..] + Split(b, sep)[0]] + Split(b, sep)[1..];
      assert Split(s, sep) == [[s[0]] + rest[0]] + rest[1..];
      assert [a[0]] + (a[1..] + Split(b, sep)[0]) == a + Split(b, sep)[0];
    } else {
      assert a + b == b;
      assert a + Split(b, sep)[0] == Split(b, sep)[0];
      assert Split(b, sep) == [Split(b, sep)[0]] + Split(b, sep)[1..];
    }
  }

  /** Splitting a join gives back the pieces, when none of them holds the separator. */
  lemma {:induction false} SplitJoin(parts: seq<string>, sep: char)
    requires |parts| >= 1
    requires forall k :: 0 <= k < |parts| ==> sep !in parts[k]
    ensures Split(Join(parts, sep), sep) == parts
  {
    if |parts| == 1 {
      assert Split("", sep) == [""];
      SplitFreePrefix(parts[0], "", sep);
      assert parts[0] + "" == parts[0];
      assert Join(parts, sep) == parts[0];
    } else {
      var tail := Join(parts[1..], sep);
      assert Join(parts, sep) == parts[0] + [sep] + tail;
      SplitJoin(parts[1..], sep);
      var b := [sep] + tail;
      assert b[0] == sep && b[1..] == tail;
      assert Split(b, sep) == [""] + parts[1..];
      assert parts[0] + [sep] + tail == parts[0] + b;
      SplitFreePrefix(parts[0], b, sep);
      assert Split(b, sep)[0] == "" && Split(b, sep)[1..] == parts[1..];
      assert parts[0] + "" == parts[0];
      assert parts == [parts[0]] + parts[1..];
    }
  }

  /** Every piece followed by the separator, trailing one included (a `StringBuilder` loop). */
  function Terminated(parts: seq<string>, sep: char): string
  {
    if parts == [] then "" else Terminated(parts[..|parts| - 1], sep) + parts[|parts| - 1] + [sep]
  }

  lemma {:induction false} JoinAppend(parts: seq<string>, x: string, sep: char)
    requires |parts| >= 1
    ensures Join(parts + [x], sep) == Join(parts, sep) + [sep] + x
    decreases |parts|
  {
    var q := parts + [x];
    assert q[1..] == parts[1..] + [x];
    if |parts| > 1 {
      JoinAppend(parts[1..], x, sep);
    }
  }

  /** A separator-terminated list is the join followed by one more separator. */
  lemma {:induction false} TerminatedJoin(parts: seq<string>, sep: char)
    requires |parts| >= 1
    ensures Terminated(parts, sep) == Join(parts, sep) + [sep]
    decreases |parts|
  {
    var n := |parts|;
    if n == 1 {
      assert parts[..0] == [];
    } else {
      var init := parts[..n - 1];
      TerminatedJoin(init, sep);
      JoinAppend(init, parts[n - 1], sep);
      assert init + [parts[n - 1]] == parts;
    }
  }

  /** A common prefix cancels. */
  lemma DropPrefix(p: string, a: string, b: string)
    requires p + a == p + b
    ensures a == b
  {
    assert a == (p + a)[|p|..];
    assert b == (p + b)[|p|..];
  }

  /** Index of the first `c` in `s`, or -1 (`String.IndexOf(char)`). */
  function IndexOf(s: string, c: char): (i: int)
    ensures -1 <= i < |s|
    ensures i == -1 <==> c !in s
    ensures 0 <= i ==> s[i] == c && c !in s[..i]
  {
    if s == [] then -1
    else if s[0] == c then 0
    else
      var j := IndexOf(s[1..], c);
      if j == -1 then -1 else (assert s[..j + 1] == [s[0]] + s[1..][..j]; j + 1)
  }

  /** The first `c` of `a + [c] + b` is the one after `a` when `a` holds none. */
  lemma {:induction false} IndexOfAfterFree(a: string, c: char, b: string)
    requires c !in a
    ensures IndexOf(a + [c] + b, c) == |a|
  {
    if a != [] {
      assert (a + [c] + b)[1..] == a[1..] + [c] + b;
      IndexOfAfterFree(a[1..], c, b);
    }
  }

  /** Without a separator, the split is the whole string. */
  lemma SplitNone(s: string, sep: char)
    requires sep !in s
    ensures Split(s, sep) == [s]
  {
    assert Split("", sep) == [""];
    SplitFreePrefix(s, "", sep);
    assert s + "" == s;
  }

  /** With a separator, the first piece ends just before the first one. */
  lemma SplitAtFirst(s: string, sep: char, i: nat)
    requires i < |s| && s[i] == sep && sep !in s[..i]
    ensures Split(s, sep) == [s[..i]] + Split(s[i + 1..], sep)
  {
    var a, b := s[..i], s[i..];
    assert s == a + b;
    assert b[0] == sep && b[1..] == s[i + 1..];
    var tail := Split(s[i + 1..], sep);
    assert Split(b, sep) == [""] + tail;
    SplitFreePrefix(a, b, sep);
    assert a + "" == a;
  }

  /** The first piece of a split is the text up to the first separator, or all of it. */
  lemma SplitHead(s: string, sep: char)
    ensures |Split(s, sep)| >= 2 <==> sep in s
    ensures Split(s, sep)[0] == if sep in s then s[..IndexOf(s, sep)] else s
  {
    if sep in s {
      SplitAtFirst(s, sep, IndexOf(s, sep));
    } else {
      SplitNone(s, sep);
    }
  }

  // ---------------------------------------------------------------------
  // Substring search
  // ---------------------------------------------------------------------

  predicate OccursAt(s: string, pat: string, i: int)
  {
    0 <= i && i + |pat| <= |s| && s[i..i + |pat|] == pat
  }

  function FindFrom(s: string, pat: string, k: nat): (i: int)
    requires k <= |s|
    ensures i == -1 || (k <= i && OccursAt(s, pat, i))
    ensures i == -1 ==> forall j :: k <= j <= |s| ==> !OccursAt(s, pat, j)
    ensures i >= 0 ==> forall j :: k <= j < i ==> !OccursAt(s, pat, j)
    decreases |s| - k
  {
    if OccursAt(s, pat, k) then k
    else if k == |s| then -1
    else FindFrom(s, pat, k + 1)
  }

  /**
   * Index of the first occurrence of `pat` in `s`, or -1: an ordinal search.
   * It stands for `String.IndexOf(string)`, which .NET runs with the current
   * culture's comparison instead.
   */
  function IndexOfSubstring(s: string, pat: string): (i: int)
    ensures i == -1 || OccursAt(s, pat, i)
    ensures i == -1 <==> forall j :: 0 <= j <= |s| ==> !OccursAt(s, pat, j)
    ensures forall j :: 0 <= j < i ==> !OccursAt(s, pat, j)
  {
    FindFrom(s, pat, 0)
  }

  predicate ContainsSubstring(s: string, pat: string)
  {
    IndexOfSubstring(s, pat) != -1
  }

  // ---------------------------------------------------------------------
  // Decimal rendering and parsing of integers
  // ---------------------------------------------------------------------

  const MinInt32: int := -0x8000_0000
  const MaxInt32: int := 0x7FFF_FFFF
  const MinInt64: int := -0x8000_0000_0000_0000
  const MaxInt64: int := 0x7FFF_FFFF_FFFF_FFFF

  predicate IsDigit(c: char)
  {
    '0' <= c <= '9'
  }

  predicate AllDigits(s: string)
  {
    forall k :: 0 <= k < |s| ==> IsDigit(s[k])
  }

  function DigitChar(d: nat): (c: char)
    requires d < 10
    ensures IsDigit(c) && c as int - '0' as int == d
  {
    ('0' as int + d) as char
  }

  /** Decimal digits of `n`, most significant first, no leading zeros. */
  function NatToString(n: nat): (s: string)
    ensures |s| >= 1 && AllDigits(s)
    ensures s[0] != '0' || n == 0
    decreases n
  {
    if n < 10 then [DigitChar(n)] else NatToString(n / 10) + [DigitChar(n % 10)]
  }

  /** `long.ToString()`: an optional leading '-' followed by decimal digits. */
  function IntToString(n: int): (s: string)
    ensures |s| >= 1
    ensures forall k :: 0 <= k < |s| ==> IsDigit(s[k]) || (k == 0 && s[k] == '-')
  {
    if n < 0 then "-" + NatToString(-n) else NatToString(n)
  }

  /** Decimal renderings of the ids, in order. */
  function Rendered(ids: seq<int>): (r: seq<string>)
    ensures |r| == |ids|
  {
    seq(|ids|, k requires 0 <= k < |ids| => IntToString(ids[k]))
  }

  /** One more id rendered and terminated, as a `StringBuilder` loop appends it. */
  lemma TerminatedRenderedStep(ids: seq<int>, k: nat)
    requires k < |ids|
    ensures Terminated(Rendered(ids[..k + 1]), ',')
         == Terminated(Rendered(ids[..k]), ',') + IntToString(ids[k]) + ","
  {
    var parts := Rendered(ids[..k + 1]);
    assert parts[..|parts| - 1] == Rendered(ids[..k]);
    assert parts[|parts| - 1] == IntToString(ids[k]);
  }

  /** Value of a run of decimal digits. */
  function DigitsValue(s: string): nat
    requires AllDigits(s)
  {
    if s == [] then 0
    else
      assert IsDigit(s[|s| - 1]);
      DigitsValue(s[..|s| - 1]) * 10 + (s[|s| - 1] as int - '0' as int)
  }

  /** An optional '+' or '-' sign followed by at least one digit, with no range check. */
  function ParseInteger(s: string): Option<int>
  {
    if |s| > 0 && (s[0] == '-' || s[0] == '+') then
      if |s| > 1 && AllDigits(s[1..]) then
        var v: int := DigitsValue(s[1..]);
        Some(if s[0] == '-' then -v else v)
      else None
    else if |s| > 0 && AllDigits(s) then Some(DigitsValue(s))
    else None
  }

  /** The characters `NumberStyles.AllowLeadingWhite`/`AllowTrailingWhite` skip. */
  predicate IsNumberWhite(c: char)
  {
    c == ' ' || '\t' <= c <= '\r'
  }

  function TrimStartWhite(s: string): string
  {
    if s != [] && IsNumberWhite(s[0]) then TrimStartWhite(s[1..]) else s
  }

  function TrimEndWhite(s: string): string
  {
    if s != [] && IsNumberWhite(s[|s| - 1]) then TrimEndWhite(s[..|s| - 1]) else s
  }

  /** The run of `'\0'` characters .NET's integer parsing accepts at the very end. */
  function TrimEndNul(s: string): string
  {
    if s != [] && s[|s| - 1] == '\0' then TrimEndNul(s[..|s| - 1]) else s
  }

  /**
   * `Int32.TryParse`/`Int64.TryParse` with `NumberStyles.Integer`: white space
   * around, one optional '-' or '+' sign, digits, then any number of `'\0'`
   * characters, and a value inside [lo, hi].
   * None stands for a `false` return (the out value is then 0).
   */
  function TryParse(s: string, lo: int, hi: int): (r: Option<int>)
    ensures r.Some? ==> lo <= r.value <= hi
  {
    match ParseInteger(TrimEndWhite(TrimStartWhite(TrimEndNul(s))))
    case Some(v) => if lo <= v <= hi then Some(v) else None
    case None => None
  }

  lemma {:induction false} DigitsOfNat(n: nat)
    ensures DigitsValue(NatToString(n)) == n
    decreases n
  {
    if n >= 10 {
      var s := NatToString(n / 10);
      DigitsOfNat(n / 10);
      assert (s + [DigitChar(n % 10)])[..|s|] == s;
    }
  }

  /** Parsing the rendering of an integer gives the integer back. */
  lemma ParseIntToString(n: int)
    ensures ParseInteger(IntToString(n)) == Some(n)
  {
    if n < 0 {
      assert IntToString(n)[1..] == NatToString(-n);
      DigitsOfNat(-n);
    } else {
      DigitsOfNat(n);
    }
  }

  /** In range, `TryParse` reads back what `ToString` wrote. */
  lemma TryParseIntToString(n: int, lo: int, hi: int)
    requires lo <= n <= hi
    ensures TryParse(IntToString(n), lo, hi) == Some(n)
  {
    var s := IntToString(n);
    assert s[|s| - 1] != '\0';
    assert TrimEndNul(s) == s;
    assert !IsNumberWhite(s[0]) && !IsNumberWhite(s[|s| - 1]);
    assert TrimStartWhite(s) == s;
    assert TrimEndWhite(s) == s;
    ParseIntToString(n);
  }

  /** Trailing `'\0'` characters are accepted: `5` followed by a NUL parses as 5. */
  lemma TryParseTrailingNul(n: int, lo: int, hi: int)
    requires lo <= n <= hi
    ensures TryParse(IntToString(n) + ['\0'], lo, hi) == Some(n)
  {
    var s := IntToString(n);
    assert (s + ['\0'])[..|s|] == s;
    assert TrimEndNul(s + ['\0']) == TrimEndNul(s);
    TryParseIntToString(n, lo, hi);
  }

  /** Different integers render differently. */
  lemma IntToStringInjective(a: int, b: int)
    requires IntToString(a) == IntToString(b)
    ensures a == b
  {
    ParseIntToString(a);
    ParseIntToString(b);
  }

  /** A rendered integer holds no character other than digits and '-'. */
  lemma IntToStringFree(n: int, c: char)
    requires !IsDigit(c) && c != '-'
    ensures c !in IntToString(n)
  {
  }

  /**
   * Two integers followed by the same non-numeral character cancel: what
   * follows them is equal, and so are they.
   */
  lemma {:induction false} IntPrefixCancel(a: int, b: int, c: char, s: string, t: string)
    requires !IsDigit(c) && c != '-'
    requires IntToString(a) + [c] + s == IntToString(b) + [c] + t
    ensures a == b && s == t
  {
    var x, y := IntToString(a), IntToString(b);
    var u, v := x + [c] + s, y + [c] + t;
    IntToStringFree(a, c);
    IntToStringFree(b, c);
    assert u[|x|] == c && v[|y|] == c;
    if |x| < |y| {
      assert false;
    } else if |y| < |x| {
      assert false;
    }
    assert u[..|x|] == x;
    assert v[..|y|] == y;
    IntToStringInjective(a, b);
    assert u[|x| + 1..] == s;
    assert v[|y| + 1..] == t;
  }

  // ---------------------------------------------------------------------
  // Hexadecimal
  // ---------------------------------------------------------------------

  function HexDigit(d: nat): char
    requires d < 16
  {
    "0123456789ABCDEF"[d]
  }

  /** `int.ToString("X")` for a non-negative value: upper-case hex, no leading zeros. */
  function Hex(n: nat): (s: string)
    ensures |s| >= 1
    decreases n
  {
    if n < 16 then [HexDigit(n)] else Hex(n / 16) + [HexDigit(n % 16)]
  }

  /** Value of one hex digit (either case), or None. */
  function HexValue(c: char): (r: Option<nat>)
    ensures r.Some? ==> r.value < 16
  {
    if '0' <= c <= '9' then Some(c as int - '0' as int)
    else if 'A' <= c <= 'F' then Some(c as int - 'A' as int + 10)
    else if 'a' <= c <= 'f' then Some(c as int - 'a' as int + 10)
    else None
  }

  /** Two hex digits give back the value of a byte they were written from. */
  lemma HexByte(n: nat)
    requires 16 <= n < 256
    ensures |Hex(n)| == 2
    ensures HexValue(Hex(n)[0]) == Some(n / 16) && HexValue(Hex(n)[1]) == Some(n % 16)
  {
  }
}
