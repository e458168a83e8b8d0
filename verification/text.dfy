/** String helpers shared by the front end and the backend: prefix and suffix
    tests, joining and splitting, decimal formatting, trimming under the two
    runtimes' whitespace sets, ASCII case folding and UTF-16 length. */
module Text {
  import opened Wrappers

  // ---------------------------------------------------------------------------
  // Prefixes and suffixes
  // ---------------------------------------------------------------------------

  predicate StartsWith(s: string, prefix: string) {
    |prefix| <= |s| && s[..|prefix|] == prefix
  }

  predicate EndsWith(s: string, suffix: string) {
    |suffix| <= |s| && s[|s| - |suffix|..] == suffix
  }

  lemma StartsWithAppend(prefix: string, rest: string)
    ensures StartsWith(prefix + rest, prefix)
  {
    assert (prefix + rest)[..|prefix|] == prefix;
  }

  lemma EndsWithAppend(rest: string, suffix: string)
    ensures EndsWith(rest + suffix, suffix)
  {
    assert (rest + suffix)[|rest|..] == suffix;
  }

  // ---------------------------------------------------------------------------
  // Join and split
  // ---------------------------------------------------------------------------

  /** `sep.join(parts)` in Python, `parts.join(sep)` in JavaScript. */
  function Join(parts: seq<string>, sep: string): string {
    if |parts| == 0 then ""
    else if |parts| == 1 then parts[0]
    else parts[0] + sep + Join(parts[1..], sep)
  }

  lemma JoinCons(first: string, rest: seq<string>, sep: string)
    requires |rest| > 0
    ensures Join([first] + rest, sep) == first + sep + Join(rest, sep)
  {
    assert ([first] + rest)[1..] == rest;
  }

  /** Joining the first `k` parts gives a prefix of joining them all. */
  lemma {:induction false} JoinPrefix(parts: seq<string>, k: nat, sep: string)
    requires k <= |parts|
    ensures StartsWith(Join(parts, sep), Join(parts[..k], sep))
  {
    if k == 0 {
      assert Join(parts[..k], sep) == "";
    } else if k == 1 {
      assert parts[..k] == [parts[0]];
      if |parts| > 1 {
        StartsWithAppend(parts[0], sep + Join(parts[1..], sep));
        assert parts[0] + sep + Join(parts[1..], sep) == parts[0] + (sep + Join(parts[1..], sep));
      }
    } else {
      var head := parts[..k];
      assert head[1..] == parts[1..][..k - 1];
      JoinPrefix(parts[1..], k - 1, sep);
      var shorter := Join(parts[1..][..k - 1], sep);
      var longer := Join(parts[1..], sep);
      assert longer[..|shorter|] == shorter;
      assert Join(head, sep) == parts[0] + sep + shorter;
      assert Join(parts, sep) == parts[0] + sep + longer;
      assert (parts[0] + sep + longer)[..|parts[0] + sep + shorter|] == parts[0] + sep + shorter;
    }
  }

  /** The length of a join: every part plus one separator between neighbours. */
  function TotalLength(parts: seq<string>): nat {
    if |parts| == 0 then 0 else |parts[0]| + TotalLength(parts[1..])
  }

  lemma {:induction false} JoinLength(parts: seq<string>, sep: string)
    requires |parts| > 0
    ensures |Join(parts, sep)| == TotalLength(parts) + |sep| * (|parts| - 1)
  {
    if |parts| > 1 {
      var n := |parts| - 1;
      JoinLength(parts[1..], sep);
      assert |Join(parts[1..], sep)| == TotalLength(parts[1..]) + |sep| * (n - 1);
      assert |sep| * (n - 1) + |sep| == |sep| * n;
    }
  }

  /** JavaScript's `s.split(c)` for a one-character separator: every occurrence
      cuts, so an empty string gives `[""]` and `"a..b"` gives `["a", "", "b"]`. */
  function Split(s: string, sep: char): (r: seq<string>)
    ensures |r| >= 1
    ensures forall i :: 0 <= i < |r| ==> sep !in r[i]
    decreases |s|
  {
    if |s| == 0 then [""]
    else
      var rest := Split(s[1..], sep);
      if s[0] == sep then [""] + rest
      else [[s[0]] + rest[0]] + rest[1..]
  }

  /** Splitting loses nothing: joining the pieces with the separator gives the input back. */
  lemma {:induction false} JoinSplit(s: string, sep: char)
    ensures Join(Split(s, sep), [sep]) == s
    decreases |s|
  {
    if |s| > 0 {
      var rest := Split(s[1..], sep);
      JoinSplit(s[1..], sep);
      if s[0] == sep {
        assert Split(s, sep) == [""] + rest;
        assert ([""] + rest)[1..] == rest;
        assert s == [sep] + s[1..];
      } else if |rest| == 1 {
        assert s == [s[0]] + s[1..];
      } else {
        var parts := [[s[0]] + rest[0]] + rest[1..];
        assert parts[1..] == rest[1..];
        assert Join(rest, [sep]) == rest[0] + [sep] + Join(rest[1..], [sep]);
        assert s == [s[0]] + s[1..];
      }
    }
  }

  /** A prefix free of the separator merges into the first piece. */
  lemma {:induction false} SplitPrefixFree(a: string, t: string, sep: char)
    requires sep !in a
    ensures Split(a + t, sep) == [a + Split(t, sep)[0]] + Split(t, sep)[1..]
    decreases |a|
  {
    var s := Split(t, sep);
    if |a| == 0 {
      assert a + t == t;
      assert a + s[0] == s[0];
      assert s == [s[0]] + s[1..];
    } else {
      assert a[0] != sep;
      assert (a + t)[0] == a[0];
      assert (a + t)[1..] == a[1..] + t;
      SplitPrefixFree(a[1..], t, sep);
      var rest := Split(a[1..] + t, sep);
      assert rest == [a[1..] + s[0]] + s[1..];
      assert Split(a + t, sep) == [[a[0]] + rest[0]] + rest[1..];
      assert [a[0]] + (a[1..] + s[0]) == a + s[0];
      assert rest[1..] == s[1..];
    }
  }

  /** A separator-free string is a single piece. */
  lemma SplitNone(a: string, sep: char)
    requires sep !in a
    ensures Split(a, sep) == [a]
  {
    SplitPrefixFree(a, "", sep);
    assert a + "" == a;
  }

  /** The first separator ends the first piece. */
  lemma SplitOnce(a: string, b: string, sep: char)
    requires sep !in a
    ensures Split(a + [sep] + b, sep) == [a] + Split(b, sep)
  {
    assert a + [sep] + b == a + ([sep] + b);
    SplitPrefixFree(a, [sep] + b, sep);
    assert ([sep] + b)[1..] == b;
    assert ([sep] + b)[0] == sep;
    assert a + "" == a;
  }

  /** Joining separator-free pieces and splitting again recovers the pieces. */
  lemma {:induction false} SplitJoin(parts: seq<string>, sep: char)
    requires |parts| >= 1
    requires forall i :: 0 <= i < |parts| ==> sep !in parts[i]
    ensures Split(Join(parts, [sep]), sep) == parts
    decreases |parts|
  {
    if |parts| == 1 {
      SplitPrefixFree(parts[0], "", sep);
      assert parts[0] + "" == parts[0];
    } else {
      SplitJoin(parts[1..], sep);
      var tail := Join(parts[1..], [sep]);
      assert Join(parts, [sep]) == parts[0] + ([sep] + tail);
      SplitPrefixFree(parts[0], [sep] + tail, sep);
      assert ([sep] + tail)[1..] == tail;
      assert ([sep] + tail)[0] == sep;
      var st := Split([sep] + tail, sep);
      assert st == [""] + parts[1..];
      assert st[0] == "" && st[1..] == parts[1..];
      assert parts[0] + "" == parts[0];
      assert parts == [parts[0]] + parts[1..];
    }
  }

  // ---------------------------------------------------------------------------
  // Decimal formatting
  // ---------------------------------------------------------------------------

  predicate IsDigit(c: char) {
    '0' <= c <= '9'
  }

  function DigitChar(d: nat): (c: char)
    requires d < 10
    ensures IsDigit(c) && c as int - '0' as int == d
  {
    "0123456789"[d]
  }

  /** Decimal digits of `n` without leading zeros (Python `str`, JavaScript `String`). */
  function NatToString(n: nat): (r: string)
    ensures |r| >= 1
    ensures forall i :: 0 <= i < |r| ==> IsDigit(r[i])
    ensures r[0] == '0' <==> n == 0
    decreases n
  {
    if n < 10 then [DigitChar(n)] else NatToString(n / 10) + [DigitChar(n % 10)]
  }

  function DigitValue(c: char): nat
    requires IsDigit(c)
  {
    c as int - '0' as int
  }

  /** Reads back a string of decimal digits. */
  function ParseNat(s: string): nat
    requires forall i :: 0 <= i < |s| ==> IsDigit(s[i])
  {
    if |s| == 0 then 0
    else ParseNat(s[..|s| - 1]) * 10 + DigitValue(s[|s| - 1])
  }

  lemma {:induction false} ParseNatToString(n: nat)
    ensures ParseNat(NatToString(n)) == n
    decreases n
  {
    if n >= 10 {
      var r := NatToString(n);
      assert r[..|r| - 1] == NatToString(n / 10);
      ParseNatToString(n / 10);
    }
  }

  /** An optional minus sign followed by at least one decimal digit. */
  predicate IsNumeral(s: string) {
    && |s| >= 1
    && (s[0] == '-' ==> |s| >= 2 && forall i :: 1 <= i < |s| ==> IsDigit(s[i]))
    && (s[0] != '-' ==> forall i :: 0 <= i < |s| ==> IsDigit(s[i]))
  }

  /** Decimal formatting with a leading minus sign for negatives. */
  function IntToString(i: int): (r: string)
    ensures i < 0 ==> |r| >= 2 && r[0] == '-' && r[1..] == NatToString(-i)
    ensures i >= 0 ==> r == NatToString(i)
    ensures IsNumeral(r)
  {
    if i < 0 then "-" + NatToString(-i) else NatToString(i)
  }

  /** Reads back an optionally negative decimal numeral. */
  function ParseInt(s: string): int
    requires IsNumeral(s)
  {
    if s[0] == '-' then
      var digits := s[1..];
      assert forall k :: 0 <= k < |digits| ==> digits[k] == s[k + 1];
      -(ParseNat(digits) as int)
    else
      ParseNat(s)
  }

  lemma IntToStringRoundTrip(i: int)
    ensures ParseInt(IntToString(i)) == i
  {
    if i < 0 {
      ParseNatToString(-i);
    } else {
      ParseNatToString(i);
    }
  }

  /** Different integers print differently. */
  lemma IntToStringInjective(i: int, j: int)
    requires IntToString(i) == IntToString(j)
    ensures i == j
  {
    IntToStringRoundTrip(i);
    IntToStringRoundTrip(j);
  }

  /** The numeral in front of a fixed suffix, when there is one. */
  function NumberBefore(s: string, suffix: string): Option<int> {
    if |s| >= |suffix| && EndsWith(s, suffix) && IsNumeral(s[..|s| - |suffix|]) then
      Some(ParseInt(s[..|s| - |suffix|]))
    else
      None
  }

  lemma NumberBeforeSuffix(i: int, suffix: string)
    ensures NumberBefore(IntToString(i) + suffix, suffix) == Some(i)
  {
    var s := IntToString(i) + suffix;
    assert s[..|s| - |suffix|] == IntToString(i);
    assert s[|s| - |suffix|..] == suffix;
    IntToStringRoundTrip(i);
  }

  // ---------------------------------------------------------------------------
  // Trimming
  // ---------------------------------------------------------------------------

  /** ECMAScript `WhiteSpace` and `LineTerminator`: what `String.prototype.trim` removes. */
  predicate IsJsWhitespace(c: char) {
    var u := c as int;
    (0x09 <= u <= 0x0D) || u == 0x20 || u == 0xA0 || u == 0x1680
    || (0x2000 <= u <= 0x200A) || u == 0x2028 || u == 0x2029 || u == 0x202F
    || u == 0x205F || u == 0x3000 || u == 0xFEFF
  }

  /** Python's `str.isspace`: what `str.strip()` with no argument removes. Unlike
      JavaScript it includes U+001C..U+001F and U+0085 and excludes U+FEFF. */
  predicate IsPyWhitespace(c: char) {
    var u := c as int;
    (0x09 <= u <= 0x0D) || (0x1C <= u <= 0x20) || u == 0x85 || u == 0xA0 || u == 0x1680
    || (0x2000 <= u <= 0x200A) || u == 0x2028 || u == 0x2029 || u == 0x202F
    || u == 0x205F || u == 0x3000
  }

  /** Neither end of `s` is whitespace under `ws`. */
  predicate Trimmed(s: string, ws: char -> bool) {
    |s| == 0 || (!ws(s[0]) && !ws(s[|s| - 1]))
  }

  predicate AllWhitespace(s: string, ws: char -> bool) {
    forall i :: 0 <= i < |s| ==> ws(s[i])
  }

  /** Drops the longest all-whitespace prefix. */
  function TrimStart(s: string, ws: char -> bool): (r: string)
    ensures |r| <= |s| && r == s[|s| - |r|..]
    ensures AllWhitespace(s[..|s| - |r|], ws)
    ensures |r| == 0 || !ws(r[0])
    decreases |s|
  {
    if |s| > 0 && ws(s[0]) then TrimStart(s[1..], ws) else s
  }

  /** Drops the longest all-whitespace suffix. */
  function TrimEnd(s: string, ws: char -> bool): (r: string)
    ensures |r| <= |s| && r == s[..|r|]
    ensures AllWhitespace(s[|r|..], ws)
    ensures |r| == 0 || !ws(r[|r| - 1])
    decreases |s|
  {
    if |s| > 0 && ws(s[|s| - 1]) then TrimEnd(s[..|s| - 1], ws) else s
  }

  function Trim(s: string, ws: char -> bool): (r: string)
    ensures Trimmed(r, ws)
    ensures forall i :: 0 <= i < |r| ==> r[i] in s
  {
    var t := TrimStart(s, ws);
    var r := TrimEnd(t, ws);
    assert |r| > 0 ==> r[0] == t[0];
    r
  }

  lemma {:induction false} TrimStartOfTrimmed(s: string, ws: char -> bool)
    requires |s| == 0 || !ws(s[0])
    ensures TrimStart(s, ws) == s
  {
  }

  lemma {:induction false} TrimEndOfTrimmed(s: string, ws: char -> bool)
    requires |s| == 0 || !ws(s[|s| - 1])
    ensures TrimEnd(s, ws) == s
  {
  }

  /** A trimmed string is its own trim. */
  lemma TrimOfTrimmed(s: string, ws: char -> bool)
    requires Trimmed(s, ws)
    ensures Trim(s, ws) == s
  {
    TrimStartOfTrimmed(s, ws);
    TrimEndOfTrimmed(s, ws);
  }

  lemma TrimIdempotent(s: string, ws: char -> bool)
    ensures Trim(Trim(s, ws), ws) == Trim(s, ws)
  {
    TrimOfTrimmed(Trim(s, ws), ws);
  }

  lemma {:induction false} TrimStartPadded(pre: string, s: string, ws: char -> bool)
    requires AllWhitespace(pre, ws)
    requires |s| == 0 || !ws(s[0])
    ensures TrimStart(pre + s, ws) == s
    decreases |pre|
  {
    if |pre| > 0 {
      assert (pre + s)[1..] == pre[1..] + s;
      TrimStartPadded(pre[1..], s, ws);
    } else {
      assert pre + s == s;
    }
  }

  lemma {:induction false} TrimEndPadded(s: string, post: string, ws: char -> bool)
    requires AllWhitespace(post, ws)
    requires |s| == 0 || !ws(s[|s| - 1])
    ensures TrimEnd(s + post, ws) == s
    decreases |post|
  {
    if |post| > 0 {
      assert (s + post)[..|s + post| - 1] == s + post[..|post| - 1];
      TrimEndPadded(s, post[..|post| - 1], ws);
    } else {
      assert s + post == s;
    }
  }

  /** Whitespace padding on either side of a trimmed string is exactly what trimming removes. */
  lemma TrimPadded(pre: string, s: string, post: string, ws: char -> bool)
    requires AllWhitespace(pre, ws) && AllWhitespace(post, ws)
    requires Trimmed(s, ws)
    ensures Trim(pre + s + post, ws) == s
  {
    if |s| == 0 {
      assert pre + s + post == pre + post;
      assert AllWhitespace(pre + post, ws);
      TrimStartPadded(pre + post, "", ws);
      assert pre + post + "" == pre + post;
    } else {
      assert pre + s + post == pre + (s + post);
      TrimStartPadded(pre, s + post, ws);
      TrimEndPadded(s, post, ws);
    }
  }

  /** Extra whitespace on either side does not change the trim. */
  lemma TrimIgnoresPadding(pre: string, t: string, post: string, ws: char -> bool)
    requires AllWhitespace(pre, ws) && AllWhitespace(post, ws)
    ensures Trim(pre + t + post, ws) == Trim(t, ws)
  {
    var a := TrimStart(t, ws);
    var b := TrimEnd(a, ws);
    assert b == Trim(t, ws);
    TrimStartSplits(t, ws);
    TrimEndSplits(a, ws);
    PaddedTrim(pre, t[..|t| - |a|], b, a[|b|..], post, ws);
  }

  lemma TrimStartSplits(t: string, ws: char -> bool)
    ensures t == t[..|t| - |TrimStart(t, ws)|] + TrimStart(t, ws)
    ensures AllWhitespace(t[..|t| - |TrimStart(t, ws)|], ws)
  {
    SplitBefore(t, TrimStart(t, ws));
  }

  /** A string is its head followed by any suffix it ends in. */
  lemma SplitBefore(t: string, a: string)
    requires |a| <= |t| && a == t[|t| - |a|..]
    ensures t == t[..|t| - |a|] + a
  {
  }

  lemma TrimEndSplits(a: string, ws: char -> bool)
    ensures a == TrimEnd(a, ws) + a[|TrimEnd(a, ws)|..]
    ensures AllWhitespace(a[|TrimEnd(a, ws)|..], ws)
  {
    var b := TrimEnd(a, ws);
    assert b == a[..|b|];
  }

  lemma PaddedTrim(pre: string, lead: string, b: string, trail: string, post: string, ws: char -> bool)
    requires AllWhitespace(pre, ws) && AllWhitespace(lead, ws)
    requires AllWhitespace(trail, ws) && AllWhitespace(post, ws)
    requires Trimmed(b, ws)
    ensures Trim(pre + (lead + (b + trail)) + post, ws) == b
  {
    AllWhitespaceAppend(pre, lead, ws);
    AllWhitespaceAppend(trail, post, ws);
    assert pre + (lead + (b + trail)) + post == (pre + lead) + b + (trail + post);
    TrimPadded(pre + lead, b, trail + post, ws);
  }

  lemma AllWhitespaceAppend(a: string, b: string, ws: char -> bool)
    requires AllWhitespace(a, ws) && AllWhitespace(b, ws)
    ensures AllWhitespace(a + b, ws)
  {
    forall i | 0 <= i < |a + b|
      ensures ws((a + b)[i])
    {
      if i >= |a| {
        assert (a + b)[i] == b[i - |a|];
      }
    }
  }

  // ---------------------------------------------------------------------------
  // ASCII case folding
  // ---------------------------------------------------------------------------

  function LowerChar(c: char): char {
    if 'A' <= c <= 'Z' then (c as int + 32) as char else c
  }

  function UpperChar(c: char): char {
    if 'a' <= c <= 'z' then (c as int - 32) as char else c
  }

  /** `toLowerCase`, restricted to ASCII letters. */
  function Lower(s: string): (r: string)
    ensures |r| == |s|
    ensures forall i :: 0 <= i < |s| ==> r[i] == LowerChar(s[i])
  {
    seq(|s|, i requires 0 <= i < |s| => LowerChar(s[i]))
  }

  /** A string all of whose characters come from a lowered string is already lower case. */
  lemma LowerOfLowered(s: string, t: string)
    requires forall i :: 0 <= i < |s| ==> s[i] in Lower(t)
    ensures Lower(s) == s
  {
    forall i | 0 <= i < |s|
      ensures LowerChar(s[i]) == s[i]
    {
      var j :| 0 <= j < |t| && Lower(t)[j] == s[i];
    }
  }

  // ---------------------------------------------------------------------------
  // Length as JavaScript counts it
  // ---------------------------------------------------------------------------

  /** JavaScript's `length`: UTF-16 code units, two for a character above U+FFFF. */
  function Utf16Length(s: string): (n: nat)
    ensures |s| <= n <= 2 * |s|
  {
    if |s| == 0 then 0
    else (if s[0] as int >= 0x1_0000 then 2 else 1) + Utf16Length(s[1..])
  }

  lemma {:induction false} Utf16LengthAppend(s: string, t: string)
    ensures Utf16Length(s + t) == Utf16Length(s) + Utf16Length(t)
    decreases |s|
  {
    if |s| > 0 {
      assert (s + t)[1..] == s[1..] + t;
      Utf16LengthAppend(s[1..], t);
    } else {
      assert s + t == t;
    }
  }

  lemma {:induction false} Utf16LengthOfBmp(s: string)
    requires forall i :: 0 <= i < |s| ==> s[i] as int < 0x1_0000
    ensures Utf16Length(s) == |s|
  {
    if |s| > 0 {
      Utf16LengthOfBmp(s[1..]);
    }
  }

  // ---------------------------------------------------------------------------
  // UTF-8 as Python's `str.encode()` produces it
  // ---------------------------------------------------------------------------

  /** An octet. */
  newtype byte = b: int | 0 <= b < 0x100

  /** The UTF-8 bytes of one character: one byte below U+0080, then two, three
      and four. */
  function Utf8Char(c: char): (r: seq<byte>)
    ensures 1 <= |r| <= 4
    ensures |r| == 1 <==> c as int < 0x80
    ensures c as int < 0x80 ==> r == [c as int as byte]
  {
    var u := c as int;
    if u < 0x80 then [u as byte]
    else if u < 0x800 then
      DivBelow(u, 0x40, 0x20);
      [LeadByte(u, 0xC0, 0x40), Continuation(u)]
    else if u < 0x1_0000 then
      DivBelow(u, 0x1000, 0x10);
      [LeadByte(u, 0xE0, 0x1000), Continuation(u / 0x40), Continuation(u)]
    else
      DivBelow(u, 0x4_0000, 0x5);
      [LeadByte(u, 0xF0, 0x4_0000), Continuation(u / 0x1000),
       Continuation(u / 0x40), Continuation(u)]
  }

  lemma DivBelow(u: nat, scale: nat, bound: nat)
    requires scale > 0 && u < bound * scale
    ensures u / scale < bound
  {
  }

  /** The first byte of a multi-byte sequence: a length marker above the bits
      of `u` that the continuation bytes do not carry. */
  function LeadByte(u: nat, marker: nat, scale: nat): byte
    requires scale > 0 && marker + u / scale < 0x100
  {
    (marker + u / scale) as byte
  }

  /** A continuation byte: `10` followed by the low six bits of `x`. */
  function Continuation(x: nat): byte {
    (0x80 + x % 0x40) as byte
  }

  function Utf8(s: string): (r: seq<byte>)
    ensures |s| <= |r| <= 4 * |s|
    decreases |s|
  {
    if s == [] then [] else Utf8Char(s[0]) + Utf8(s[1..])
  }

  /** An ASCII character in front adds its own code as one byte in front. */
  lemma Utf8OfAsciiHead(c: char, s: string)
    requires c as int < 0x80
    ensures Utf8([c] + s) == [c as int as byte] + Utf8(s)
  {
    assert ([c] + s)[1..] == s;
  }

  lemma {:induction false} Utf8Append(s: string, t: string)
    ensures Utf8(s + t) == Utf8(s) + Utf8(t)
    decreases |s|
  {
    if s != [] {
      var h := Utf8Char(s[0]);
      assert (s + t)[0] == s[0] && (s + t)[1..] == s[1..] + t;
      assert Utf8(s + t) == h + Utf8(s[1..] + t);
      Utf8Append(s[1..], t);
      assert h + (Utf8(s[1..]) + Utf8(t)) == (h + Utf8(s[1..])) + Utf8(t);
    } else {
      assert s + t == t;
    }
  }

  /** Two numbers with the same quotient and remainder are equal. */
  lemma Recompose(x: nat, y: nat, m: nat)
    requires m > 0 && x / m == y / m && x % m == y % m
    ensures x == y
  {
    assert x == m * (x / m) + x % m;
    assert y == m * (y / m) + y % m;
  }

  /** A lead byte read back as a number. */
  lemma LeadValue(u: nat, marker: nat, scale: nat)
    requires scale > 0 && marker + u / scale < 0x100
    ensures LeadByte(u, marker, scale) as int == marker + u / scale
  {
  }

  /** The first byte of a character's encoding tells how many bytes follow. */
  lemma LeadClass(c: char)
    ensures var r := Utf8Char(c); var b := r[0] as int;
            && (|r| == 1 <==> b < 0x80)
            && (|r| == 2 <==> 0xC0 <= b < 0xE0)
            && (|r| == 3 <==> 0xE0 <= b < 0xF0)
            && (|r| == 4 <==> 0xF0 <= b)
  {
    var u := c as int;
    if u < 0x80 {
      LeadOne(c);
    } else if u < 0x800 {
      LeadTwo(c);
    } else if u < 0x1_0000 {
      LeadThree(c);
    } else {
      LeadFour(c);
    }
  }

  lemma LeadOne(c: char)
    requires c as int < 0x80
    ensures Utf8Char(c)[0] as int < 0x80
  {
  }

  lemma LeadTwo(c: char)
    requires 0x80 <= c as int < 0x800
    ensures |Utf8Char(c)| == 2 && 0xC0 <= Utf8Char(c)[0] as int < 0xE0
  {
    var u := c as int;
    DivBelow(u, 0x40, 0x20);
    LeadValue(u, 0xC0, 0x40);
  }

  lemma LeadThree(c: char)
    requires 0x800 <= c as int < 0x1_0000
    ensures |Utf8Char(c)| == 3 && 0xE0 <= Utf8Char(c)[0] as int < 0xF0
  {
    var u := c as int;
    DivBelow(u, 0x1000, 0x10);
    LeadValue(u, 0xE0, 0x1000);
  }

  lemma LeadFour(c: char)
    requires 0x1_0000 <= c as int
    ensures |Utf8Char(c)| == 4 && 0xF0 <= Utf8Char(c)[0] as int
  {
    var u := c as int;
    DivBelow(u, 0x4_0000, 0x5);
    LeadValue(u, 0xF0, 0x4_0000);
  }

  /** Equal continuation bytes carry equal low six bits. */
  lemma ContinuationEq(x: nat, y: nat)
    requires Continuation(x) == Continuation(y)
    ensures x % 0x40 == y % 0x40
  {
  }

  /** Equal lead bytes with the same marker carry equal high bits. */
  lemma LeadEq(u: nat, v: nat, marker: nat, scale: nat)
    requires scale > 0 && marker + u / scale < 0x100 && marker + v / scale < 0x100
    requires LeadByte(u, marker, scale) == LeadByte(v, marker, scale)
    ensures u / scale == v / scale
  {
    LeadValue(u, marker, scale);
    LeadValue(v, marker, scale);
  }

  lemma DivDiv(u: nat)
    ensures u / 0x40 / 0x40 == u / 0x1000
    ensures u / 0x1000 / 0x40 == u / 0x4_0000
  {
  }

  /** How many bytes a character takes. */
  function Utf8Width(c: char): nat {
    if c as int < 0x80 then 1 else if c as int < 0x800 then 2 else if c as int < 0x1_0000 then 3 else 4
  }

  lemma Utf8CharWidth(c: char)
    ensures |Utf8Char(c)| == Utf8Width(c)
  {
  }

  /** Different characters have different encodings. */
  lemma Utf8CharInjective(c: char, d: char)
    requires Utf8Char(c) == Utf8Char(d)
    ensures c == d
  {
    Utf8CharWidth(c);
    Utf8CharWidth(d);
    var w := Utf8Width(c);
    if w == 1 {
    } else if w == 2 {
      TwoByteInjective(c, d);
    } else if w == 3 {
      ThreeByteInjective(c, d);
    } else {
      FourByteInjective(c, d);
    }
  }

  lemma TwoByteInjective(c: char, d: char)
    requires Utf8Width(c) == 2 && Utf8Width(d) == 2
    requires Utf8Char(c) == Utf8Char(d)
    ensures c == d
  {
    var u, v := c as int, d as int;
    var r := Utf8Char(c);
    DivBelow(u, 0x40, 0x20);
    DivBelow(v, 0x40, 0x20);
    assert r[0] == LeadByte(u, 0xC0, 0x40) == LeadByte(v, 0xC0, 0x40);
    assert r[1] == Continuation(u) == Continuation(v);
    LeadEq(u, v, 0xC0, 0x40);
    ContinuationEq(u, v);
    Recompose(u, v, 0x40);
  }

  lemma ThreeByteInjective(c: char, d: char)
    requires Utf8Width(c) == 3 && Utf8Width(d) == 3
    requires Utf8Char(c) == Utf8Char(d)
    ensures c == d
  {
    var u, v := c as int, d as int;
    var r := Utf8Char(c);
    DivBelow(u, 0x1000, 0x10);
    DivBelow(v, 0x1000, 0x10);
    assert r[0] == LeadByte(u, 0xE0, 0x1000) == LeadByte(v, 0xE0, 0x1000);
    assert r[1] == Continuation(u / 0x40) == Continuation(v / 0x40);
    assert r[2] == Continuation(u) == Continuation(v);
    LeadEq(u, v, 0xE0, 0x1000);
    ContinuationEq(u / 0x40, v / 0x40);
    ContinuationEq(u, v);
    DivDiv(u);
    DivDiv(v);
    Recompose(u / 0x40, v / 0x40, 0x40);
    Recompose(u, v, 0x40);
  }

  lemma FourByteInjective(c: char, d: char)
    requires Utf8Width(c) == 4 && Utf8Width(d) == 4
    requires Utf8Char(c) == Utf8Char(d)
    ensures c == d
  {
    var u, v := c as int, d as int;
    var r := Utf8Char(c);
    DivBelow(u, 0x4_0000, 0x5);
    DivBelow(v, 0x4_0000, 0x5);
    assert r[0] == LeadByte(u, 0xF0, 0x4_0000) == LeadByte(v, 0xF0, 0x4_0000);
    assert r[1] == Continuation(u / 0x1000) == Continuation(v / 0x1000);
    assert r[2] == Continuation(u / 0x40) == Continuation(v / 0x40);
    assert r[3] == Continuation(u) == Continuation(v);
    LeadEq(u, v, 0xF0, 0x4_0000);
    ContinuationEq(u / 0x1000, v / 0x1000);
    ContinuationEq(u / 0x40, v / 0x40);
    ContinuationEq(u, v);
    DivDiv(u);
    DivDiv(v);
    Recompose(u / 0x1000, v / 0x1000, 0x40);
    Recompose(u / 0x40, v / 0x40, 0x40);
    Recompose(u, v, 0x40);
  }

  /** Two encodings that start alike are equally long. */
  lemma SameLeadSameWidth(c: char, d: char)
    requires Utf8Char(c)[0] == Utf8Char(d)[0]
    ensures |Utf8Char(c)| == |Utf8Char(d)|
  {
    LeadClass(c);
    LeadClass(d);
  }

  /** UTF-8 is a prefix code, so different texts encode to different bytes. */
  lemma {:induction false} Utf8Injective(s: string, t: string)
    requires Utf8(s) == Utf8(t)
    ensures s == t
    decreases |s|
  {
    if s == [] {
      assert |t| <= |Utf8(t)| == 0;
    } else {
      assert |Utf8(t)| == |Utf8(s)| > 0;
      var hs, ht := Utf8Char(s[0]), Utf8Char(t[0]);
      Utf8Head(s);
      Utf8Head(t);
      SameLeadSameWidth(s[0], t[0]);
      assert hs == Utf8(s)[..|hs|];
      assert ht == Utf8(t)[..|ht|];
      Utf8CharInjective(s[0], t[0]);
      assert Utf8(s[1..]) == Utf8(s)[|hs|..];
      assert Utf8(t[1..]) == Utf8(t)[|ht|..];
      Utf8Injective(s[1..], t[1..]);
      assert s == [s[0]] + s[1..];
      assert t == [t[0]] + t[1..];
    }
  }

  /** The encoding of a text starts with the encoding of its first character. */
  lemma Utf8Head(s: string)
    requires s != []
    ensures Utf8(s) == Utf8Char(s[0]) + Utf8(s[1..])
    ensures Utf8(s)[0] == Utf8Char(s[0])[0]
  {
  }

}
