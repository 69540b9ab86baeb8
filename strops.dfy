/**
  The Python string built-ins the interpreter relies on: `str.strip()`,
  `str.startswith`, `str.endswith`, the slice `s[1:-1]`, `str.split(sep)`,
  `str.split(sep, 1)`, `sep.join(...)`, `str(int)` and `int(str)`.
  Strings are sequences of Unicode scalar values; a Python 3 `str` may also
  hold lone surrogates (U+D800 to U+DFFF), which no Dafny `char` is.
*/
module StrOps {
  import opened Wrappers

  /** Python's `str.isspace()` for one code point: the characters `str.strip()` removes. */
  predicate IsSpace(c: char) {
    var k := c as int;
    (9 <= k <= 13) || (28 <= k <= 32) || k == 0x85 || k == 0xA0 || k == 0x1680
    || (0x2000 <= k <= 0x200A) || k == 0x2028 || k == 0x2029 || k == 0x202F
    || k == 0x205F || k == 0x3000
  }

  predicate AllSpace(s: string) {
    forall i :: 0 <= i < |s| ==> IsSpace(s[i])
  }

  /** Neither end of `s` is white space (the shape of every result of `Strip`). */
  predicate Trimmed(s: string) {
    s == [] || (!IsSpace(s[0]) && !IsSpace(s[|s| - 1]))
  }

  /** The number of white-space characters at the start of `s`. */
  function LeadingSpace(s: string): (n: nat)
    ensures n <= |s|
    ensures AllSpace(s[..n])
    ensures n < |s| ==> !IsSpace(s[n])
  {
    if |s| > 0 && IsSpace(s[0]) then 1 + LeadingSpace(s[1..]) else 0
  }

  /** The number of white-space characters at the end of `s`. */
  function TrailingSpace(s: string): (n: nat)
    ensures n <= |s|
    ensures AllSpace(s[|s| - n..])
    ensures n < |s| ==> !IsSpace(s[|s| - n - 1])
  {
    if |s| > 0 && IsSpace(s[|s| - 1]) then 1 + TrailingSpace(s[..|s| - 1]) else 0
  }

  /**
    Python's `s.strip()`: `s` with its leading and trailing white space removed.
    The result is trimmed; StripPadded below shows it is the only trimmed
    string that white space alone surrounds in `s`.
  */
  function Strip(s: string): (r: string)
    ensures Trimmed(r)
    ensures |r| <= |s|
  {
    var i := LeadingSpace(s);
    var rest := s[i..];
    var j := TrailingSpace(rest);
    var r := rest[..|rest| - j];
    assert r != [] ==> r[0] == s[i];
    r
  }

  /** White space before `u` adds to the count of leading white space. */
  lemma {:induction false} LeadingSpaceAppend(pre: string, u: string)
    requires AllSpace(pre)
    ensures LeadingSpace(pre + u) == |pre| + LeadingSpace(u)
  {
    if pre != [] {
      assert (pre + u)[1..] == pre[1..] + u;
      LeadingSpaceAppend(pre[1..], u);
    } else {
      assert pre + u == u;
    }
  }

  /** White space after `u` adds to the count of trailing white space. */
  lemma {:induction false} TrailingSpaceAppend(u: string, post: string)
    requires AllSpace(post)
    ensures TrailingSpace(u + post) == TrailingSpace(u) + |post|
  {
    if post != [] {
      var s := u + post;
      assert s[..|s| - 1] == u + post[..|post| - 1];
      TrailingSpaceAppend(u, post[..|post| - 1]);
    } else {
      assert u + post == u;
    }
  }

  /** A string that is only white space is all leading white space. */
  lemma {:induction false} LeadingSpaceAll(s: string)
    requires AllSpace(s)
    ensures LeadingSpace(s) == |s|
  {
    if s != [] {
      LeadingSpaceAll(s[1..]);
    }
  }

  /** A string that is only white space strips to the empty string. */
  lemma {:induction false} StripAllSpace(s: string)
    requires AllSpace(s)
    ensures Strip(s) == []
  {
    LeadingSpaceAll(s);
    var rest := s[|s|..];
    assert rest == [];
  }

  /** Strip removes exactly the white space around a trimmed core. */
  lemma {:induction false} StripPadded(pre: string, t: string, post: string)
    requires AllSpace(pre) && AllSpace(post) && Trimmed(t)
    ensures Strip(pre + t + post) == t
  {
    var s := pre + t + post;
    if t == [] {
      assert s == pre + post;
      assert AllSpace(s) by {
        forall k | 0 <= k < |s| ensures IsSpace(s[k]) {
          if k < |pre| { assert s[k] == pre[k]; } else { assert s[k] == post[k - |pre|]; }
        }
      }
      StripAllSpace(s);
    } else {
      assert s == pre + (t + post);
      LeadingSpaceAppend(pre, t + post);
      assert LeadingSpace(t + post) == 0;
      assert s[|pre|..] == t + post;
      TrailingSpaceAppend(t, post);
      assert TrailingSpace(t) == 0;
      assert (t + post)[..|t|] == t;
    }
  }

  /** A trimmed string strips to itself. */
  lemma {:induction false} StripTrimmed(t: string)
    requires Trimmed(t)
    ensures Strip(t) == t
  {
    StripPadded([], t, []);
    assert [] + t + [] == t;
  }

  /** Stripping twice is stripping once. */
  lemma {:induction false} StripIdempotent(s: string)
    ensures Strip(Strip(s)) == Strip(s)
  {
    StripTrimmed(Strip(s));
  }

  /** White space before a string does not change what it strips to. */
  lemma {:induction false} StripDropsLeadingSpace(pre: string, s: string)
    requires AllSpace(pre)
    ensures Strip(pre + s) == Strip(s)
  {
    var u := pre + s;
    LeadingSpaceAppend(pre, s);
    assert u[|pre| + LeadingSpace(s)..] == s[LeadingSpace(s)..];
    StripAfterLeading(u, s);
  }

  /** Two strings whose text after the leading white space agrees strip alike. */
  lemma {:induction false} StripAfterLeading(u: string, v: string)
    requires u[LeadingSpace(u)..] == v[LeadingSpace(v)..]
    ensures Strip(u) == Strip(v)
  {
  }

  /** A string starting with a trimmed, non-empty prefix keeps that prefix when stripped. */
  lemma {:induction false} StripKeepsPrefix(p: string, s: string)
    requires p != [] && Trimmed(p)
    ensures |p| <= |Strip(p + s)| && Strip(p + s)[..|p|] == p
  {
    var u := p + s;
    assert LeadingSpace(u) == 0 by { assert u[0] == p[0]; }
    assert u[0..] == u;
    var j := TrailingSpace(u);
    assert u[|p| - 1] == p[|p| - 1];
    assert u[..|u| - j][..|p|] == p;
  }

  /** Python's `s.startswith(p)`. */
  predicate StartsWith(s: string, p: string) {
    |p| <= |s| && s[..|p|] == p
  }

  /** Python's `s.endswith(p)`. */
  predicate EndsWith(s: string, p: string) {
    |p| <= |s| && s[|s| - |p|..] == p
  }

  /** Text starts with `p` exactly when it is `p` followed by the rest of the text. */
  lemma {:induction false} StartsWithConcat(p: string, rest: string)
    ensures StartsWith(p + rest, p)
    ensures forall s :: StartsWith(s, p) ==> s == p + s[|p|..]
  {
    assert (p + rest)[..|p|] == p;
    forall s | StartsWith(s, p)
      ensures s == p + s[|p|..]
    {
      assert s == s[..|p|] + s[|p|..];
    }
  }

  /** Text ends with `p` exactly when it is the rest of the text followed by `p`. */
  lemma {:induction false} EndsWithConcat(rest: string, p: string)
    ensures EndsWith(rest + p, p)
    ensures forall s :: EndsWith(s, p) ==> s == s[..|s| - |p|] + p
  {
    assert (rest + p)[|rest|..] == p;
    forall s | EndsWith(s, p)
      ensures s == s[..|s| - |p|] + p
    {
      assert s == s[..|s| - |p|] + s[|s| - |p|..];
    }
  }

  /**
    Python's slice `s[1:-1]`: the text between the first and the last character.
    On a string of one character it is empty, as Python's slicing never fails.
  */
  function Interior(s: string): (r: string)
    ensures |s| >= 2 ==> [s[0]] + r + [s[|s| - 1]] == s
    ensures |s| < 2 ==> r == []
  {
    if |s| >= 2 then s[1..|s| - 1] else []
  }

  /** The position of the first `c` in `s`. */
  function IndexOf(s: string, c: char): (i: nat)
    requires c in s
    ensures i < |s| && s[i] == c && c !in s[..i]
  {
    if s[0] == c then 0 else
      var j := IndexOf(s[1..], c);
      assert s[1..][..j] == s[1..j + 1];
      assert s[..j + 1] == [s[0]] + s[1..][..j];
      1 + j
  }

  /** Python's `sep.join(parts)`. */
  function JoinWith(parts: seq<string>, sep: string): string {
    if |parts| == 0 then []
    else if |parts| == 1 then parts[0]
    else parts[0] + sep + JoinWith(parts[1..], sep)
  }

  /**
    Python's `s.split(c)`: the pieces of `s` between occurrences of `c`.
    There is always at least one piece, no piece contains `c`, and joining
    the pieces with `c` gives `s` back.
  */
  function SplitAll(s: string, c: char): (r: seq<string>)
    ensures |r| >= 1
    ensures forall k :: 0 <= k < |r| ==> c !in r[k]
    ensures JoinWith(r, [c]) == s
    decreases |s|
  {
    if c in s then
      var i := IndexOf(s, c);
      var rest := SplitAll(s[i + 1..], c);
      var r := [s[..i]] + rest;
      assert r[1..] == rest;
      assert s == s[..i] + [c] + s[i + 1..];
      r
    else
      [s]
  }

  /** Splitting text that does not contain the separator gives that text as the only piece. */
  lemma {:induction false} SplitAllWithout(s: string, c: char)
    requires c !in s
    ensures SplitAll(s, c) == [s]
  {
  }

  /** Splitting `a + c + b` where `a` has no `c` gives `a` first and then the pieces of `b`. */
  lemma {:induction false} SplitAllAt(a: string, c: char, b: string)
    requires c !in a
    ensures SplitAll(a + [c] + b, c) == [a] + SplitAll(b, c)
  {
    var s := a + [c] + b;
    assert s[|a|] == c;
    var i := IndexOf(s, c);
    assert s[..i] == a;
    assert s[i + 1..] == b;
  }

  /** Splitting undoes joining: pieces without `c`, joined by `c`, split back into the same pieces. */
  lemma {:induction false} SplitJoin(parts: seq<string>, c: char)
    requires |parts| >= 1 && forall k :: 0 <= k < |parts| ==> c !in parts[k]
    ensures SplitAll(JoinWith(parts, [c]), c) == parts
    decreases |parts|
  {
    if |parts| == 1 {
      SplitAllWithout(parts[0], c);
    } else {
      var rest := JoinWith(parts[1..], [c]);
      assert c !in parts[0];
      SplitAllAt(parts[0], c, rest);
      SplitJoin(parts[1..], c);
      assert [parts[0]] + parts[1..] == parts;
    }
  }

  /**
    Python's `s.split(c, 1)`: the text before the first `c` and the text after
    it, or `None` when `s` has no `c` (then Python's list has one element only).
  */
  function SplitFirst(s: string, c: char): (r: Option<(string, string)>)
    ensures r.None? <==> c !in s
    ensures r.Some? ==> c !in r.value.0 && r.value.0 + [c] + r.value.1 == s
  {
    if c in s then
      var i := IndexOf(s, c);
      assert s == s[..i] + [c] + s[i + 1..];
      Some((s[..i], s[i + 1..]))
    else
      None
  }

  /** The split is at the first `c`: the right part may itself contain `c`. */
  lemma {:induction false} SplitFirstAt(a: string, c: char, b: string)
    requires c !in a
    ensures SplitFirst(a + [c] + b, c) == Some((a, b))
  {
    var s := a + [c] + b;
    assert s[|a|] == c;
    var r := SplitFirst(s, c);
    var l := r.value.0;
    assert l == s[..|a|] == a;
    assert r.value.1 == s[|a| + 1..] == b;
  }

  predicate IsDigit(c: char) {
    '0' <= c <= '9'
  }

  function DigitValue(c: char): (d: nat)
    requires IsDigit(c)
    ensures d < 10
  {
    c as int - '0' as int
  }

  function DigitChar(d: nat): (c: char)
    requires d < 10
    ensures IsDigit(c) && DigitValue(c) == d
  {
    ('0' as int + d) as char
  }

  /** The decimal digits of `n`, most significant first, without leading zeros. */
  function NatToString(n: nat): (r: string)
    ensures |r| >= 1
    ensures forall k :: 0 <= k < |r| ==> IsDigit(r[k])
    ensures r[0] == '0' ==> n == 0
  {
    if n < 10 then [DigitChar(n)] else NatToString(n / 10) + [DigitChar(n % 10)]
  }

  /** Python's `str(n)` for an integer: its decimal digits, with `-` before a negative one. */
  function IntToString(n: int): string {
    if n < 0 then "-" + NatToString(-n) else NatToString(n)
  }

  /**
    The digit run `int()` accepts in base 10: digits, where single underscores
    may stand between two digits.
  */
  predicate DigitRun(s: string) {
    |s| > 0 && IsDigit(s[0]) && IsDigit(s[|s| - 1])
    && (forall k :: 0 <= k < |s| ==> IsDigit(s[k]) || s[k] == '_')
    && (forall k :: 0 <= k < |s| - 1 ==> !UnderscorePairAt(s, k))
  }

  /** Two underscores in a row start at position `k` of `s`. */
  predicate UnderscorePairAt(s: string, k: int) {
    0 <= k < |s| - 1 && s[k] == '_' && s[k + 1] == '_'
  }

  /** The number a digit run denotes; underscores are skipped. */
  function DigitsValue(s: string): nat {
    if s == [] then 0
    else
      var c := s[|s| - 1];
      var p := DigitsValue(s[..|s| - 1]);
      if IsDigit(c) then 10 * p + DigitValue(c) else p
  }

  /** A digit run read as a number, or `None` when `s` is not one. */
  function ParseDigits(s: string): (r: Option<int>)
    ensures r.Some? ==> r.value >= 0
  {
    if DigitRun(s) then Some(DigitsValue(s)) else None
  }

  /**
    The white space `int()` skips around its digits. CPython hands ASCII
    characters to its parser unchanged and that parser skips only
    ` \t\n\v\f\r`, while other Unicode white space is first turned into a
    blank; so this is `str.strip()`'s set without U+001C to U+001F.
  */
  predicate IsIntSpace(c: char) {
    IsSpace(c) && !(28 <= c as int <= 31)
  }

  /** The number of characters `int()` skips at the start of `s`. */
  function LeadingIntSpace(s: string): (n: nat)
    ensures n <= |s|
    ensures forall k :: 0 <= k < n ==> IsIntSpace(s[k])
    ensures n < |s| ==> !IsIntSpace(s[n])
  {
    if |s| > 0 && IsIntSpace(s[0]) then 1 + LeadingIntSpace(s[1..]) else 0
  }

  /** The number of characters `int()` skips at the end of `s`. */
  function TrailingIntSpace(s: string): (n: nat)
    ensures n <= |s|
    ensures forall k :: |s| - n <= k < |s| ==> IsIntSpace(s[k])
    ensures n < |s| ==> !IsIntSpace(s[|s| - n - 1])
  {
    if |s| > 0 && IsIntSpace(s[|s| - 1]) then 1 + TrailingIntSpace(s[..|s| - 1]) else 0
  }

  /**
    `s` without the white space `int()` skips at either end: the text left
    is the part of `s` after its leading skippable characters, it starts and
    ends with a character `int()` does not skip, and only skippable
    characters follow it.
  */
  function IntStrip(s: string): (r: string)
    ensures |r| <= |s|
    ensures r != [] ==> !IsIntSpace(r[0]) && !IsIntSpace(r[|r| - 1])
    ensures var i := LeadingIntSpace(s);
      i + |r| <= |s| && r == s[i..i + |r|]
      && (forall k :: 0 <= k < i ==> IsIntSpace(s[k]))
      && (forall k :: i + |r| <= k < |s| ==> IsIntSpace(s[k]))
  {
    var i := LeadingIntSpace(s);
    var rest := s[i..];
    var j := TrailingIntSpace(rest);
    var r := rest[..|rest| - j];
    assert r != [] ==> r[0] == s[i];
    assert r == s[i..i + |r|];
    assert forall k :: i + |r| <= k < |s| ==> s[k] == rest[k - i];
    r
  }

  /**
    `int()` skips the white space around a digit run: padding it on either
    side with characters `int()` skips does not change its value.
  */
  lemma {:induction false} ParseIntPadded(pre: string, digits: string, post: string)
    requires forall k :: 0 <= k < |pre| ==> IsIntSpace(pre[k])
    requires forall k :: 0 <= k < |post| ==> IsIntSpace(post[k])
    requires DigitRun(digits)
    ensures ParseInt(pre + digits + post) == Some(DigitsValue(digits) as int)
  {
    var s := pre + digits + post;
    var i := LeadingIntSpace(s);
    assert s[|pre|] == digits[0];
    assert !IsIntSpace(digits[0]);
    assert i == |pre|;
    var r := IntStrip(s);
    var e := |pre| + |digits| - 1;
    assert s[e] == digits[|digits| - 1] && !IsIntSpace(s[e]);
    assert |r| >= |digits|;
    assert r == digits;
    assert !(digits[0] == '-' || digits[0] == '+');
  }

  /** Text trimmed by `str.strip()` has nothing `int()` would skip. */
  lemma {:induction false} IntStripTrimmed(t: string)
    requires Trimmed(t)
    ensures IntStrip(t) == t
  {
    if t != [] {
      assert !IsIntSpace(t[0]) && !IsIntSpace(t[|t| - 1]);
      assert LeadingIntSpace(t) == 0;
      assert TrailingIntSpace(t) == 0;
    }
  }

  /**
    Python's `int(s)` in base 10: surrounding white space is ignored, one
    optional `+` or `-` sign, then a digit run. `None` is the `ValueError`.
  */
  function ParseInt(s: string): (r: Option<int>) {
    var t := IntStrip(s);
    if |t| > 0 && t[0] == '-' then
      match ParseDigits(t[1..])
      case Some(v) => Some(-v)
      case None => None
    else if |t| > 0 && t[0] == '+' then ParseDigits(t[1..])
    else ParseDigits(t)
  }

  /** Reading back the digits of `n` gives `n`. */
  lemma {:induction false} NatToStringValue(n: nat)
    ensures DigitRun(NatToString(n))
    ensures DigitsValue(NatToString(n)) == n
  {
    var r := NatToString(n);
    if n >= 10 {
      NatToStringValue(n / 10);
      var p := NatToString(n / 10);
      assert r == p + [DigitChar(n % 10)];
      assert r[..|r| - 1] == p;
      assert r[0] == p[0];
    }
  }

  /** `int(str(n)) == n` for every integer `n`. */
  lemma {:induction false} ParseIntToString(n: int)
    ensures ParseInt(IntToString(n)) == Some(n)
  {
    if n < 0 {
      ParseIntToStringNegative(n);
    } else {
      var digits := NatToString(n);
      NatToStringValue(n);
      ParseIntDigits(digits);
      assert IntToString(n) == digits;
    }
  }

  /** The negative half of ParseIntToString. */
  lemma {:induction false} ParseIntToStringNegative(n: int)
    requires n < 0
    ensures ParseInt(IntToString(n)) == Some(n)
  {
    var m: nat := -n;
    ParseIntMinusDigits(m);
    assert IntToString(n) == "-" + NatToString(m);
  }

  /** `int("-" + str(m)) == -m` for a natural number `m`. */
  lemma {:induction false} ParseIntMinusDigits(m: nat)
    ensures ParseInt("-" + NatToString(m)) == Some(-(m as int))
  {
    NatToStringValue(m);
    ParseIntNegative(NatToString(m));
  }

  /** `int()` reads a bare digit run as the number it denotes. */
  lemma {:induction false} ParseIntDigits(digits: string)
    requires DigitRun(digits)
    ensures ParseInt(digits) == Some(DigitsValue(digits) as int)
  {
    IntStripTrimmed(digits);
    assert !(digits[0] == '-' || digits[0] == '+');
  }

  /** `int()` reads `-` and a digit run as the negated number. */
  lemma {:induction false} ParseIntNegative(digits: string)
    requires DigitRun(digits)
    ensures ParseInt("-" + digits) == Some(-(DigitsValue(digits) as int))
  {
    var t := "-" + digits;
    assert t[0] == '-' && t[|t| - 1] == digits[|digits| - 1];
    IntStripTrimmed(t);
    assert t[1..] == digits;
  }

  /**
    An ASCII information separator (U+001C to U+001F) in front of the
    digits makes `int()` fail, although `str.strip()` would remove it.
  */
  lemma {:induction false} ParseIntRejectsSeparator(c: char, s: string)
    requires 28 <= c as int <= 31
    ensures ParseInt([c] + s) == None
  {
    var u := [c] + s;
    assert !IsIntSpace(u[0]);
    assert LeadingIntSpace(u) == 0;
    var t := IntStrip(u);
    if t != [] {
      assert t[0] == c;
      assert !DigitRun(t);
    }
  }

  /** The decimal digits of an integer never contain ".", a quote or white space. */
  lemma {:induction false} IntToStringPlain(n: int)
    ensures '.' !in IntToString(n) && '\'' !in IntToString(n) && '"' !in IntToString(n)
    ensures Trimmed(IntToString(n))
  {
    var digits := NatToString(if n < 0 then -n else n);
    var s := IntToString(n);
    assert s == (if n < 0 then "-" else "") + digits;
    assert forall k :: 0 <= k < |s| ==> s[k] == '-' || IsDigit(s[k]) by {
      forall k | 0 <= k < |s| ensures s[k] == '-' || IsDigit(s[k]) {
        if n < 0 && k > 0 { assert s[k] == digits[k - 1]; }
      }
    }
  }
}
