/**
 * String helpers with Python's semantics, as used throughout the system:
 * `str.strip`, `str.upper`/`str.lower`, `str.startswith`, `in` on strings,
 * `str.split(sep)`, `sep.join(...)`, `re.sub(r"\D", "", s)`, `int(s)` and
 * `f"{n:0Wd}"`.
 */
module Text {
  import opened Wrappers

  // ---------------------------------------------------------------- characters

  /** The characters Python's `str.isspace()` (and the regex class `\s`) accepts. */
  predicate IsSpace(c: char) {
    || c == ' '
    || ('\U{0009}' <= c <= '\U{000D}')
    || ('\U{001C}' <= c <= '\U{001F}')
    || c == '\U{0085}' || c == '\U{00A0}' || c == '\U{1680}'
    || ('\U{2000}' <= c <= '\U{200A}')
    || c == '\U{2028}' || c == '\U{2029}' || c == '\U{202F}'
    || c == '\U{205F}' || c == '\U{3000}'
  }

  /** An ASCII decimal digit. */
  predicate IsDigit(c: char) {
    '0' <= c <= '9'
  }

  function DigitValue(c: char): (d: nat)
    requires IsDigit(c)
    ensures d < 10
  {
    c as int - '0' as int
  }

  function DigitChar(d: nat): (c: char)
    requires d < 10
    ensures IsDigit(c) && DigitValue(c) == d
  {
    (d + '0' as int) as char
  }

  predicate AllDigits(s: string) {
    forall i :: 0 <= i < |s| ==> IsDigit(s[i])
  }

  predicate AllSpace(s: string) {
    forall i :: 0 <= i < |s| ==> IsSpace(s[i])
  }

  /** Upper-casing of one character: ASCII and Latin-1 letters. */
  function UpperChar(c: char): char {
    if 'a' <= c <= 'z' || ('\U{00E0}' <= c <= '\U{00FE}' && c != '\U{00F7}') then
      (c as int - 32) as char
    else
      c
  }

  /** Lower-casing of one character: ASCII and Latin-1 letters. */
  function LowerChar(c: char): char {
    if 'A' <= c <= 'Z' || ('\U{00C0}' <= c <= '\U{00DE}' && c != '\U{00D7}') then
      (c as int + 32) as char
    else
      c
  }

  function Upper(s: string): (r: string)
    ensures |r| == |s|
    ensures forall i :: 0 <= i < |s| ==> r[i] == UpperChar(s[i])
  {
    seq(|s|, i requires 0 <= i < |s| => UpperChar(s[i]))
  }

  function Lower(s: string): (r: string)
    ensures |r| == |s|
    ensures forall i :: 0 <= i < |s| ==> r[i] == LowerChar(s[i])
  {
    seq(|s|, i requires 0 <= i < |s| => LowerChar(s[i]))
  }

  /** Upper-casing forgets a previous lower-casing, so case-insensitive tests agree. */
  lemma UpperOfLower(s: string)
    ensures Upper(Lower(s)) == Upper(s)
  {
  }

  /** Lower-casing is idempotent. */
  lemma LowerIdempotent(s: string)
    ensures Lower(Lower(s)) == Lower(s)
  {
  }

  // ---------------------------------------------------------------- prefixes and substrings

  predicate StartsWith(s: string, prefix: string) {
    |prefix| <= |s| && s[..|prefix|] == prefix
  }

  /** `sub` occurs in `s` starting at position `i`. */
  predicate OccursAt(s: string, sub: string, i: nat) {
    i + |sub| <= |s| && s[i..i + |sub|] == sub
  }

  /** Python's `sub in s`: `sub` starts at the first position of `s` or somewhere after it. */
  predicate Contains(s: string, sub: string)
    decreases |s|
  {
    StartsWith(s, sub) || (s != [] && Contains(s[1..], sub))
  }

  /** The search finds `sub` exactly when `sub` occurs at some position of `s`. */
  lemma {:induction false} ContainsOccurs(s: string, sub: string)
    ensures Contains(s, sub) <==> exists i :: 0 <= i <= |s| && OccursAt(s, sub, i)
    decreases |s|
  {
    if StartsWith(s, sub) {
      assert OccursAt(s, sub, 0);
    } else if s == [] {
      forall i | 0 <= i <= |s|
        ensures !OccursAt(s, sub, i)
      {
        assert i == 0;
      }
    } else {
      ContainsOccurs(s[1..], sub);
      forall i | 1 <= i <= |s|
        ensures OccursAt(s, sub, i) <==> OccursAt(s[1..], sub, i - 1)
      {
        if i + |sub| <= |s| {
          assert s[1..][i - 1..i - 1 + |sub|] == s[i..i + |sub|];
        }
      }
      if Contains(s[1..], sub) {
        var j :| 0 <= j <= |s[1..]| && OccursAt(s[1..], sub, j);
        assert OccursAt(s, sub, j + 1);
      }
      assert !OccursAt(s, sub, 0);
    }
  }

  /** A text without character `c` contains no string that has `c`. */
  lemma {:induction false} NotContainsChar(s: string, sub: string, c: char)
    requires c !in s && c in sub
    ensures !Contains(s, sub)
    decreases |s|
  {
    var k :| 0 <= k < |sub| && sub[k] == c;
    if |sub| <= |s| {
      assert s[..|sub|][k] == s[k];
    }
    if s != [] {
      NotContainsChar(s[1..], sub, c);
    }
  }

  // ---------------------------------------------------------------- strip

  /** `str.lstrip()`. */
  function LStrip(s: string): (r: string)
    ensures |r| <= |s| && r == s[|s| - |r|..]
    ensures r == [] || !IsSpace(r[0])
    decreases |s|
  {
    if s != [] && IsSpace(s[0]) then LStrip(s[1..]) else s
  }

  /** What `str.lstrip()` removes is whitespace only. */
  lemma {:induction false} LStripRemovesSpace(s: string)
    ensures AllSpace(s[..|s| - |LStrip(s)|])
    decreases |s|
  {
    if s != [] && IsSpace(s[0]) {
      var r := LStrip(s[1..]);
      LStripRemovesSpace(s[1..]);
      assert s[..|s| - |r|] == [s[0]] + s[1..][..|s| - 1 - |r|];
    }
  }

  /** `str.rstrip()`. */
  function RStrip(s: string): (r: string)
    ensures |r| <= |s| && r == s[..|r|]
    ensures r == [] || !IsSpace(r[|r| - 1])
    decreases |s|
  {
    if s != [] && IsSpace(s[|s| - 1]) then RStrip(s[..|s| - 1]) else s
  }

  /** What `str.rstrip()` removes is whitespace only. */
  lemma {:induction false} RStripRemovesSpace(s: string)
    ensures AllSpace(s[|RStrip(s)|..])
    decreases |s|
  {
    if s != [] && IsSpace(s[|s| - 1]) {
      var r := RStrip(s[..|s| - 1]);
      RStripRemovesSpace(s[..|s| - 1]);
      assert s[|r|..] == s[..|s| - 1][|r|..] + [s[|s| - 1]];
    }
  }

  /** No whitespace at either end. */
  predicate IsStripped(s: string) {
    s == [] || (!IsSpace(s[0]) && !IsSpace(s[|s| - 1]))
  }

  /** `str.strip()`: the longest slice of `s` with no whitespace at either end. */
  function Strip(s: string): (r: string)
    ensures IsStripped(r)
    ensures |r| <= |s|
  {
    var l := LStrip(s);
    var r := RStrip(l);
    assert r == [] || r[0] == l[0];
    r
  }

  lemma LStripOfStripped(s: string)
    requires IsStripped(s)
    ensures LStrip(s) == s
  {
  }

  lemma RStripOfStripped(s: string)
    requires IsStripped(s)
    ensures RStrip(s) == s
  {
  }

  /** Stripping a stripped string changes nothing; in particular strip is idempotent. */
  lemma StripOfStripped(s: string)
    requires IsStripped(s)
    ensures Strip(s) == s
  {
    LStripOfStripped(s);
    RStripOfStripped(s);
  }

  lemma StripIdempotent(s: string)
    ensures Strip(Strip(s)) == Strip(s)
  {
    StripOfStripped(Strip(s));
  }

  lemma {:induction false} LStripSpacePrefix(p: string, s: string)
    requires AllSpace(p)
    ensures LStrip(p + s) == LStrip(s)
    decreases |p|
  {
    if p != [] {
      assert (p + s)[1..] == p[1..] + s;
      LStripSpacePrefix(p[1..], s);
    } else {
      assert p + s == s;
    }
  }

  lemma {:induction false} RStripSpaceSuffix(s: string, q: string)
    requires AllSpace(q)
    ensures RStrip(s + q) == RStrip(s)
    decreases |q|
  {
    if q != [] {
      assert (s + q)[..|s + q| - 1] == s + q[..|q| - 1];
      RStripSpaceSuffix(s, q[..|q| - 1]);
    } else {
      assert s + q == s;
    }
  }

  lemma {:induction false} LStripAppend(s: string, q: string)
    requires AllSpace(q)
    ensures LStrip(s) == [] ==> LStrip(s + q) == []
    ensures LStrip(s) != [] ==> LStrip(s + q) == LStrip(s) + q
    decreases |s|
  {
    if s == [] {
      assert s + q == q;
      LStripSpacePrefix(q, []);
      assert q + [] == q;
    } else if IsSpace(s[0]) {
      assert (s + q)[1..] == s[1..] + q;
      LStripAppend(s[1..], q);
    }
  }

  /** Whitespace around a text does not change what strip returns. */
  lemma StripPadding(p: string, s: string, q: string)
    requires AllSpace(p) && AllSpace(q)
    ensures Strip(p + s + q) == Strip(s)
  {
    assert p + s + q == p + (s + q);
    LStripSpacePrefix(p, s + q);
    LStripAppend(s, q);
    if LStrip(s) != [] {
      RStripSpaceSuffix(LStrip(s), q);
    }
  }

  /** Appending whitespace does not change what strip returns. */
  lemma StripSpaceSuffix(s: string, q: string)
    requires AllSpace(q)
    ensures Strip(s + q) == Strip(s)
  {
    assert [] + s + q == s + q;
    StripPadding([], s, q);
  }

  lemma LowerKeepsSpace(c: char)
    ensures IsSpace(LowerChar(c)) == IsSpace(c)
  {
  }

  /** Lower-casing maps a stripped string to a stripped string. */
  lemma LowerStripped(s: string)
    requires IsStripped(s)
    ensures IsStripped(Lower(s))
  {
    if s != [] {
      LowerKeepsSpace(s[0]);
      LowerKeepsSpace(s[|s| - 1]);
    }
  }

  // ---------------------------------------------------------------- digits

  /** `re.sub(r"\D", "", s)`: the decimal digits of `s`, in order. */
  function OnlyDigits(s: string): (r: string)
    ensures AllDigits(r)
    ensures |r| <= |s|
    ensures r == [] <==> (forall i :: 0 <= i < |s| ==> !IsDigit(s[i]))
    decreases |s|
  {
    if s == [] then []
    else if IsDigit(s[0]) then [s[0]] + OnlyDigits(s[1..])
    else
      assert forall i :: 1 <= i < |s| ==> s[1..][i - 1] == s[i];
      OnlyDigits(s[1..])
  }

  lemma {:induction false} OnlyDigitsAppend(a: string, b: string)
    ensures OnlyDigits(a + b) == OnlyDigits(a) + OnlyDigits(b)
    decreases |a|
  {
    if a == [] {
      assert a + b == b;
    } else {
      assert (a + b)[1..] == a[1..] + b;
      OnlyDigitsAppend(a[1..], b);
    }
  }

  /** A string of digits is its own digit filter. */
  lemma {:induction false} OnlyDigitsOfDigits(s: string)
    requires AllDigits(s)
    ensures OnlyDigits(s) == s
    decreases |s|
  {
    if s != [] {
      OnlyDigitsOfDigits(s[1..]);
    }
  }

  lemma OnlyDigitsIdempotent(s: string)
    ensures OnlyDigits(OnlyDigits(s)) == OnlyDigits(s)
  {
    OnlyDigitsOfDigits(OnlyDigits(s));
  }

  lemma {:induction false} OnlyDigitsOfNonDigits(s: string)
    requires forall i :: 0 <= i < |s| ==> !IsDigit(s[i])
    ensures OnlyDigits(s) == []
  {
  }

  lemma {:induction false} OnlyDigitsLStrip(s: string)
    ensures OnlyDigits(LStrip(s)) == OnlyDigits(s)
    decreases |s|
  {
    if s != [] && IsSpace(s[0]) {
      OnlyDigitsLStrip(s[1..]);
    }
  }

  lemma {:induction false} OnlyDigitsRStrip(s: string)
    ensures OnlyDigits(RStrip(s)) == OnlyDigits(s)
    decreases |s|
  {
    if s != [] && IsSpace(s[|s| - 1]) {
      OnlyDigitsRStrip(s[..|s| - 1]);
      assert s == s[..|s| - 1] + [s[|s| - 1]];
      OnlyDigitsAppend(s[..|s| - 1], [s[|s| - 1]]);
    }
  }

  /** Trimming removes only whitespace, never a digit. */
  lemma OnlyDigitsStrip(s: string)
    ensures OnlyDigits(Strip(s)) == OnlyDigits(s)
  {
    OnlyDigitsLStrip(s);
    OnlyDigitsRStrip(LStrip(s));
  }

  /** Strip leading `'0'` characters (`str.lstrip("0")`). */
  function LStripZeros(s: string): (r: string)
    ensures |r| <= |s| && r == s[|s| - |r|..]
    ensures r == [] || r[0] != '0'
    decreases |s|
  {
    if s != [] && s[0] == '0' then LStripZeros(s[1..]) else s
  }

  lemma LStripZerosIdempotent(s: string)
    ensures LStripZeros(LStripZeros(s)) == LStripZeros(s)
  {
  }

  // ---------------------------------------------------------------- numbers

  function Pow10(k: nat): (r: nat)
    ensures r >= 1
  {
    if k == 0 then 1 else 10 * Pow10(k - 1)
  }

  /** The decimal rendering of `n`, as `str(n)`. */
  function NatToString(n: nat): (r: string)
    ensures |r| >= 1 && AllDigits(r)
    decreases n
  {
    if n < 10 then [DigitChar(n)] else NatToString(n / 10) + [DigitChar(n % 10)]
  }

  /** `str(n)` for any integer: a minus sign before the digits of a negative value. */
  function IntToString(n: int): (r: string)
    ensures r != []
    ensures n >= 0 ==> r == NatToString(n)
    ensures n < 0 ==> r == "-" + NatToString(-n)
  {
    if n < 0 then "-" + NatToString(-n) else NatToString(n)
  }

  /** The value of a string of decimal digits (`int(s)` for such strings; 0 for ""). */
  function ParseNat(s: string): nat
    requires AllDigits(s)
    decreases |s|
  {
    if s == [] then 0 else ParseNat(s[..|s| - 1]) * 10 + DigitValue(s[|s| - 1])
  }

  /** `int(s)` restricted to what the system feeds it: `None` unless `s` is a non-empty digit string. */
  function ParseDigits(s: string): (r: Option<nat>)
    ensures r.Some? <==> (s != [] && AllDigits(s))
  {
    if s != [] && AllDigits(s) then Some(ParseNat(s)) else None
  }

  lemma {:induction false} ParseNatToString(n: nat)
    ensures ParseNat(NatToString(n)) == n
    decreases n
  {
    if n >= 10 {
      var s := NatToString(n);
      assert s[..|s| - 1] == NatToString(n / 10);
      ParseNatToString(n / 10);
    }
  }

  /** The rendering of `n` has no more than `k` digits exactly when `n < 10^k`. */
  lemma {:induction false} NatToStringLength(n: nat, k: nat)
    requires k >= 1
    ensures |NatToString(n)| <= k <==> n < Pow10(k)
    decreases k
  {
    Pow10AtLeast(k);
    if n >= 10 {
      if k == 1 {
        assert |NatToString(n)| == |NatToString(n / 10)| + 1;
      } else {
        NatToStringLength(n / 10, k - 1);
      }
    }
  }

  lemma {:induction false} Pow10AtLeast(k: nat)
    requires k >= 1
    ensures Pow10(k) >= 10
    decreases k
  {
    if k > 1 { Pow10AtLeast(k - 1); }
  }

  function Repeat(c: char, k: nat): (r: string)
    ensures |r| == k
    ensures forall i :: 0 <= i < k ==> r[i] == c
  {
    seq(k, i => c)
  }

  /** `f"{n:0{width}d}"`: the decimal rendering padded on the left with zeros to `width`. */
  function ZeroPad(n: nat, width: nat): (r: string)
    ensures AllDigits(r)
    ensures |r| == if |NatToString(n)| >= width then |NatToString(n)| else width
  {
    var s := NatToString(n);
    if |s| >= width then s else Repeat('0', width - |s|) + s
  }

  lemma {:induction false} ParseNatLeadingZeros(z: string, s: string)
    requires forall i :: 0 <= i < |z| ==> z[i] == '0'
    requires AllDigits(s)
    ensures AllDigits(z + s)
    ensures ParseNat(z + s) == ParseNat(s)
    decreases |s|, |z|
  {
    if s == [] {
      assert z + s == z;
      if z != [] {
        assert z[..|z| - 1] + [] == z[..|z| - 1];
        ParseNatLeadingZeros(z[..|z| - 1], []);
      }
    } else {
      assert (z + s)[..|z + s| - 1] == z + s[..|s| - 1];
      ParseNatLeadingZeros(z, s[..|s| - 1]);
    }
  }

  /** Zero padding never changes the value the digits denote. */
  lemma ParseZeroPad(n: nat, width: nat)
    ensures ParseNat(ZeroPad(n, width)) == n
  {
    ParseNatToString(n);
    var s := NatToString(n);
    if |s| < width {
      ParseNatLeadingZeros(Repeat('0', width - |s|), s);
    }
  }

  /** For `n < 10^width` the padded rendering has exactly `width` characters. */
  lemma ZeroPadLength(n: nat, width: nat)
    requires width >= 1 && n < Pow10(width)
    ensures |ZeroPad(n, width)| == width
  {
    NatToStringLength(n, width);
  }

  // ---------------------------------------------------------------- split and join

  /** `s.split(sep)` for a one-character separator. */
  function Split(s: string, sep: char): (r: seq<string>)
    ensures |r| >= 1
    ensures forall i :: 0 <= i < |r| ==> sep !in r[i]
    decreases |s|
  {
    if s == [] then [""]
    else if s[0] == sep then [""] + Split(s[1..], sep)
    else
      var rest := Split(s[1..], sep);
      [[s[0]] + rest[0]] + rest[1..]
  }

  /** `sep.join(xs)`. */
  function Join(sep: string, xs: seq<string>): string
    decreases |xs|
  {
    if xs == [] then "" else if |xs| == 1 then xs[0] else xs[0] + sep + Join(sep, xs[1..])
  }

  lemma {:induction false} SplitNoSep(x: string, sep: char)
    requires sep !in x
    ensures Split(x, sep) == [x]
    decreases |x|
  {
    if x != [] {
      SplitNoSep(x[1..], sep);
      assert [x[0]] + x[1..] == x;
    }
  }

  lemma {:induction false} SplitPiece(x: string, sep: char, rest: string)
    requires sep !in x
    ensures Split(x + [sep] + rest, sep) == [x] + Split(rest, sep)
    decreases |x|
  {
    if x == [] {
      assert x + [sep] + rest == [sep] + rest;
      assert ([sep] + rest)[1..] == rest;
    } else {
      assert (x + [sep] + rest)[1..] == x[1..] + [sep] + rest;
      SplitPiece(x[1..], sep, rest);
      assert [x[0]] + x[1..] == x;
    }
  }

  /** Splitting a join on a separator that no piece contains gives the pieces back. */
  lemma {:induction false} SplitJoin(xs: seq<string>, sep: char)
    requires |xs| >= 1
    requires forall i :: 0 <= i < |xs| ==> sep !in xs[i]
    ensures Split(Join([sep], xs), sep) == xs
    decreases |xs|
  {
    if |xs| == 1 {
      SplitNoSep(xs[0], sep);
    } else {
      SplitJoin(xs[1..], sep);
      SplitPiece(xs[0], sep, Join([sep], xs[1..]));
      assert [xs[0]] + xs[1..] == xs;
    }
  }

  /** Replace every occurrence of character `a` by `b` (`str.replace` for single characters). */
  function ReplaceChar(s: string, a: char, b: char): (r: string)
    ensures |r| == |s|
    ensures forall i :: 0 <= i < |s| ==> r[i] == (if s[i] == a then b else s[i])
  {
    seq(|s|, i requires 0 <= i < |s| => if s[i] == a then b else s[i])
  }
}
