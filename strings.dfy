/** The JavaScript string operations the handlers rely on: `indexOf`,
    `split` on one character, `trim`, a trailing-character strip, `endsWith`,
    `slice(0, n)` and the decimal rendering of integers in template literals. */
module Strings {

  /** `s.indexOf(c)`: the first position of `c`, or -1. */
  function IndexOf(s: string, c: char): (i: int)
    ensures -1 <= i < |s|
    ensures 0 <= i ==> s[i] == c && c !in s[..i]
    ensures i < 0 ==> c !in s
  {
    if |s| == 0 then -1
    else if s[0] == c then 0
    else
      var j := IndexOf(s[1..], c);
      if j < 0 then -1 else j + 1
  }

  /** `s.split(sep)` for a one-character separator. */
  function Split(s: string, sep: char): (parts: seq<string>)
    ensures |parts| >= 1
    decreases |s|
  {
    var i := IndexOf(s, sep);
    if i < 0 then [s] else [s[..i]] + Split(s[i + 1..], sep)
  }

  /** No segment contains the separator. */
  lemma {:induction false} SplitSegments(s: string, sep: char)
    ensures forall seg :: seg in Split(s, sep) ==> sep !in seg
    decreases |s|
  {
    var i := IndexOf(s, sep);
    if 0 <= i {
      SplitSegments(s[i + 1..], sep);
    }
  }

  /** `parts.join(sep)`, the inverse of Split. */
  function Join(parts: seq<string>, sep: char): string
  {
    if |parts| == 0 then ""
    else if |parts| == 1 then parts[0]
    else parts[0] + [sep] + Join(parts[1..], sep)
  }

  /** Splitting and joining again gives back the original string. */
  lemma {:induction false} JoinSplit(s: string, sep: char)
    ensures Join(Split(s, sep), sep) == s
    decreases |s|
  {
    var i := IndexOf(s, sep);
    if 0 <= i {
      var head, rest := SplitCons(s, sep);
      JoinSplit(rest, sep);
      JoinCons(head, Split(rest, sep), sep);
    }
  }

  /** A string with the separator is its first segment, the separator and the rest. */
  lemma SplitCons(s: string, sep: char) returns (head: string, rest: string)
    requires 0 <= IndexOf(s, sep)
    ensures Split(s, sep) == [head] + Split(rest, sep)
    ensures s == head + [sep] + rest && |rest| < |s|
  {
    var i := IndexOf(s, sep);
    head, rest := s[..i], s[i + 1..];
    assert s == head + [sep] + rest;
  }

  /** A part joined in front of others is followed by the separator. */
  lemma JoinCons(head: string, parts: seq<string>, sep: char)
    requires |parts| >= 1
    ensures Join([head] + parts, sep) == head + [sep] + Join(parts, sep)
  {
    assert ([head] + parts)[1..] == parts;
  }

  /** The last part is joined on after one more separator. */
  lemma {:induction false} JoinLast(parts: seq<string>, sep: char)
    requires |parts| >= 2
    ensures Join(parts, sep) == Join(parts[..|parts| - 1], sep) + [sep] + parts[|parts| - 1]
    decreases |parts|
  {
    if |parts| > 2 {
      var rest := parts[1..];
      JoinLast(rest, sep);
      assert rest[..|rest| - 1] == parts[1..|parts| - 1];
      assert parts[..|parts| - 1][1..] == parts[1..|parts| - 1];
    }
  }

  /** A string without the separator is a single segment. */
  lemma SplitWithoutSep(s: string, sep: char)
    requires sep !in s
    ensures Split(s, sep) == [s]
  {
  }

  /** The first separator ends the first segment; the rest is split on its own. */
  lemma SplitAtFirst(a: string, sep: char, b: string)
    requires sep !in a
    ensures Split(a + [sep] + b, sep) == [a] + Split(b, sep)
  {
    var s := a + [sep] + b;
    IndexOfAfter(a, sep, b);
    assert s[..|a|] == a;
    assert s[|a| + 1..] == b;
  }

  lemma IndexOfAfter(a: string, c: char, b: string)
    requires c !in a
    ensures IndexOf(a + [c] + b, c) == |a|
  {
    var s := a + [c] + b;
    assert s[|a|] == c;
    assert s[..|a|] == a;
  }

  /** The whitespace `String.prototype.trim` and `Number` remove: tab, the
      line terminators, vertical tab, form feed, the byte order mark and the
      space separators (category Zs). */
  predicate IsSpace(c: char)
  {
    || c == ' ' || c == '\t' || c == '\n' || c == '\r' || c == '\U{000B}' || c == '\U{000C}'
    || c == '\U{00A0}' || c == '\U{FEFF}' || c == '\U{2028}' || c == '\U{2029}'
    || c == '\U{1680}' || ('\U{2000}' <= c <= '\U{200A}') || c == '\U{202F}' || c == '\U{205F}'
    || c == '\U{3000}'
  }

  function TrimStart(s: string): string
    decreases |s|
  {
    if |s| > 0 && IsSpace(s[0]) then TrimStart(s[1..]) else s
  }

  function TrimEnd(s: string): string
    decreases |s|
  {
    if |s| > 0 && IsSpace(s[|s| - 1]) then TrimEnd(s[..|s| - 1]) else s
  }

  /** `s.trim()`. */
  function Trim(s: string): string
  {
    TrimEnd(TrimStart(s))
  }

  /** A string with no whitespace at all is its own trim. */
  lemma TrimWithoutSpace(s: string)
    requires forall k :: 0 <= k < |s| ==> !IsSpace(s[k])
    ensures Trim(s) == s
  {
  }

  /** `s.replace(/c+$/, '')`: all trailing copies of `c` removed. */
  function StripTrailing(s: string, c: char): (r: string)
    ensures |r| <= |s| && r == s[..|r|]
    ensures forall k :: |r| <= k < |s| ==> s[k] == c
    ensures |r| == 0 || r[|r| - 1] != c
    decreases |s|
  {
    if |s| > 0 && s[|s| - 1] == c then StripTrailing(s[..|s| - 1], c) else s
  }

  /** More trailing copies of `c` are stripped just the same. */
  lemma {:induction false} StripTrailingMore(s: string, c: char, extra: string)
    requires forall k :: 0 <= k < |extra| ==> extra[k] == c
    ensures StripTrailing(s + extra, c) == StripTrailing(s, c)
    decreases |extra|
  {
    if extra == [] {
      assert s + extra == s;
    } else {
      var shorter := extra[..|extra| - 1];
      assert (s + extra)[|s + extra| - 1] == extra[|extra| - 1] == c;
      assert (s + extra)[..|s + extra| - 1] == s + shorter;
      StripTrailingMore(s, c, shorter);
    }
  }

  predicate StartsWith(s: string, prefix: string)
  {
    |prefix| <= |s| && s[..|prefix|] == prefix
  }

  /** `s.endsWith(suffix)`. */
  predicate EndsWith(s: string, suffix: string)
  {
    |suffix| <= |s| && s[|s| - |suffix|..] == suffix
  }

  /** The UTF-16 code units a character takes in a JavaScript string: two
      (a surrogate pair) above the Basic Multilingual Plane, else one. */
  function Units(c: char): nat
  {
    if c as int >= 0x1_0000 then 2 else 1
  }

  /** `s.length`: the length of `s` in UTF-16 code units. */
  function Utf16Length(s: string): nat
  {
    if s == [] then 0 else Units(s[0]) + Utf16Length(s[1..])
  }

  /** `s.slice(0, n)` as far as whole characters go: the longest prefix of
      `s` whose code units fit within `n`. */
  function Slice(s: string, n: nat): (r: string)
    ensures |r| <= |s| && r == s[..|r|]
    ensures Utf16Length(r) <= n
    ensures |r| < |s| ==> n < Utf16Length(r) + Units(s[|r|])
  {
    if s == [] || n < Units(s[0]) then []
    else
      var rest := Slice(s[1..], n - Units(s[0]));
      var r := [s[0]] + rest;
      assert r[1..] == rest;
      assert r == s[..|r|];
      assert |r| < |s| ==> s[|r|] == s[1..][|rest|];
      r
  }

  /** `s.slice(0, n)` cuts a surrogate pair in two: the prefix stops one code
      unit short of `n` because the next character takes two. JavaScript
      then keeps the lone high surrogate, which a string of characters
      cannot hold. */
  predicate SplitsPair(s: string, n: nat)
  {
    var r := Slice(s, n);
    |r| < |s| && Utf16Length(r) < n
  }

  /** A split leaves exactly one code unit unfilled, before a character of two units. */
  lemma SplitShape(s: string, n: nat)
    requires SplitsPair(s, n)
    ensures var r := Slice(s, n); Utf16Length(r) + 1 == n && Units(s[|r|]) == 2
  {
  }

  /** Without a split the slice is exact: it holds `n` code units, or all of `s`. */
  lemma {:induction false} SliceExact(s: string, n: nat)
    requires !SplitsPair(s, n)
    ensures var r := Slice(s, n); Utf16Length(r) == (if Utf16Length(s) <= n then Utf16Length(s) else n)
    ensures Utf16Length(s) <= n <==> Slice(s, n) == s
  {
    var r := Slice(s, n);
    if |r| == |s| {
      assert r == s;
    } else {
      LengthOfPrefix(s, |r|);
      assert r == s[..|r|];
      assert Utf16Length(r) == n < Utf16Length(s);
    }
  }

  /** A proper prefix is shorter in code units by the characters it leaves out. */
  lemma {:induction false} LengthOfPrefix(s: string, k: nat)
    requires k <= |s|
    ensures Utf16Length(s[..k]) <= Utf16Length(s)
    ensures k < |s| ==> Utf16Length(s[..k]) + Units(s[k]) <= Utf16Length(s)
    decreases k
  {
    if k > 0 {
      assert s[..k][1..] == s[1..][..k - 1];
      LengthOfPrefix(s[1..], k - 1);
    }
  }

  /** A string that fits is kept whole. */
  lemma SliceWhole(s: string, n: nat)
    requires Utf16Length(s) <= n
    ensures Slice(s, n) == s
  {
    LengthOfPrefix(s, |Slice(s, n)|);
  }

  /** Over the Basic Multilingual Plane the length in code units is the number of characters. */
  lemma {:induction false} BmpLength(s: string)
    requires forall k :: 0 <= k < |s| ==> Units(s[k]) == 1
    ensures Utf16Length(s) == |s|
  {
    if s != [] {
      BmpLength(s[1..]);
    }
  }

  /** A first character that fits is kept, and the rest is sliced on its own. */
  lemma SliceCons(s: string, n: nat)
    requires s != [] && Units(s[0]) <= n
    ensures Slice(s, n) == [s[0]] + Slice(s[1..], n - Units(s[0]))
  {
  }

  /** Characters of the Basic Multilingual Plane before one beyond it, with
      room for all of them and one code unit more, are kept and no more. */
  lemma {:induction false} SliceBeforePair(bmp: string, astral: char, n: nat)
    requires forall k :: 0 <= k < |bmp| ==> Units(bmp[k]) == 1
    requires |bmp| + 1 == n && Units(astral) == 2
    ensures Slice(bmp + [astral], n) == bmp
    decreases |bmp|
  {
    var s := bmp + [astral];
    if bmp != [] {
      assert s[0] == bmp[0];
      assert s[1..] == bmp[1..] + [astral];
      SliceCons(s, n);
      SliceBeforePair(bmp[1..], astral, n - 1);
      assert [bmp[0]] + bmp[1..] == bmp;
    }
  }

  /** `n - 1` characters of the Basic Multilingual Plane followed by one
      beyond it: `slice(0, n)` cuts the pair. */
  lemma SliceStopsBeforePair(bmp: string, astral: char, n: nat)
    requires forall k :: 0 <= k < |bmp| ==> Units(bmp[k]) == 1
    requires |bmp| + 1 == n && Units(astral) == 2
    ensures Slice(bmp + [astral], n) == bmp
    ensures SplitsPair(bmp + [astral], n)
  {
    SliceBeforePair(bmp, astral, n);
    BmpLength(bmp);
  }

  /** Over the Basic Multilingual Plane a code unit is a character, and the
      slice keeps the first `n` characters. */
  lemma {:induction false} SliceOfBmp(s: string, n: nat)
    requires forall k :: 0 <= k < |s| ==> Units(s[k]) == 1
    ensures Slice(s, n) == if |s| <= n then s else s[..n]
  {
    if s != [] && n > 0 {
      var t := s[1..];
      assert Units(s[0]) == 1;
      forall k | 0 <= k < |t| ensures Units(t[k]) == 1 {
        assert t[k] == s[k + 1];
      }
      SliceCons(s, n);
      SliceOfBmp(t, n - 1);
      if |s| <= n {
        assert [s[0]] + t == s;
      } else {
        assert [s[0]] + t[..n - 1] == s[..n];
      }
    }
  }

  predicate IsDigit(c: char)
  {
    '0' <= c <= '9'
  }

  predicate AllDigits(s: string)
  {
    forall k :: 0 <= k < |s| ==> IsDigit(s[k])
  }

  function DigitChar(d: nat): char
    requires d < 10
  {
    (48 + d) as char
  }

  /** The decimal value of a string of digits. */
  function DigitsValue(s: string): nat
    requires AllDigits(s)
  {
    if |s| == 0 then 0 else 10 * DigitsValue(s[..|s| - 1]) + (s[|s| - 1] as int - 48)
  }

  /** A natural number as a template literal renders it. */
  function NatToString(n: nat): string
  {
    if n < 10 then [DigitChar(n)] else NatToString(n / 10) + [DigitChar(n % 10)]
  }

  /** The rendering is a non-empty string of digits. */
  lemma {:induction false} NatToStringDigits(n: nat)
    ensures |NatToString(n)| > 0 && AllDigits(NatToString(n))
  {
    if n >= 10 {
      NatToStringDigits(n / 10);
    }
  }

  /** Reading back the decimal rendering gives the number. */
  lemma {:induction false} NatToStringValue(n: nat)
    ensures AllDigits(NatToString(n)) && DigitsValue(NatToString(n)) == n
  {
    NatToStringDigits(n);
    var s := NatToString(n);
    if n >= 10 {
      NatToStringValue(n / 10);
      assert s[..|s| - 1] == NatToString(n / 10);
    }
  }

  function IntToString(i: int): string
  {
    if i < 0 then "-" + NatToString(-i) else NatToString(i)
  }
}
