/**
 * Character and string helpers shared by the model: decimal rendering and
 * parsing of integers, prefixes, substrings, and the whitespace trimming of
 * JavaScript's String.prototype.trim.
 */
module Text {

  predicate IsDigit(c: char) { '0' <= c <= '9' }

  predicate AllDigits(s: string) { forall i :: 0 <= i < |s| ==> IsDigit(s[i]) }

  function DigitChar(d: nat): (c: char)
    requires d < 10
    ensures IsDigit(c) && c as int - '0' as int == d
  {
    (('0' as int) + d) as char
  }

  function DigitValue(c: char): (d: nat)
    requires IsDigit(c)
    ensures d < 10 && DigitChar(d) == c
  {
    c as int - '0' as int
  }

  /** Decimal rendering of a natural number, as a JS template literal or a
      Python f-string renders an integer: no sign, no leading zeros. */
  function NatToString(n: nat): (s: string)
    ensures |s| >= 1 && AllDigits(s)
    ensures s[0] == '0' ==> n == 0
  {
    if n < 10 then [DigitChar(n)] else NatToString(n / 10) + [DigitChar(n % 10)]
  }

  /** Decimal rendering of an integer, with a leading '-' when negative. */
  function IntToString(i: int): (s: string)
    ensures |s| >= 1
    ensures i < 0 <==> s[0] == '-'
    ensures i >= 0 ==> AllDigits(s)
  {
    if i < 0 then "-" + NatToString(-i) else NatToString(i)
  }

  /** The value of a non-empty run of decimal digits (Python's int() on
      such a run: leading zeros are accepted and ignored). */
  function DigitsValue(s: string): nat
    requires AllDigits(s)
  {
    if s == [] then 0 else DigitsValue(s[..|s| - 1]) * 10 + DigitValue(s[|s| - 1])
  }

  /** Rendering and parsing are inverse. */
  lemma {:induction false} DigitsValueOfNatToString(n: nat)
    ensures DigitsValue(NatToString(n)) == n
  {
    if n >= 10 {
      var s := NatToString(n);
      var p := NatToString(n / 10);
      assert s == p + [DigitChar(n % 10)];
      assert s[..|s| - 1] == p;
      DigitsValueOfNatToString(n / 10);
    }
  }

  /** Rendering is injective: distinct numbers never print alike. */
  lemma NatToStringInjective(m: nat, n: nat)
    requires NatToString(m) == NatToString(n)
    ensures m == n
  {
    DigitsValueOfNatToString(m);
    DigitsValueOfNatToString(n);
  }

  /** Two strings with the same prefix and suffix around them are equal
      when the whole strings are. */
  lemma SameAffixes(pre: string, x: string, y: string, post: string)
    requires pre + x + post == pre + y + post
    ensures x == y
  {
    var w := pre + x + post;
    assert x == w[|pre|..|pre| + |x|];
    assert y == w[|pre|..|pre| + |y|];
  }

  predicate StartsWith(s: string, prefix: string)
  {
    |prefix| <= |s| && s[..|prefix|] == prefix
  }

  /** Python's `needle in s` / JavaScript's s.includes(needle). */
  predicate Contains(s: string, needle: string)
    decreases |s|
  {
    StartsWith(s, needle) || (|s| > 0 && Contains(s[1..], needle))
  }

  lemma {:induction false} ContainsAt(s: string, needle: string, k: nat)
    requires k + |needle| <= |s| && s[k..k + |needle|] == needle
    ensures Contains(s, needle)
    decreases k
  {
    if k == 0 {
      assert s[..|needle|] == needle;
    } else {
      assert s[1..][k - 1..k - 1 + |needle|] == s[k..k + |needle|];
      ContainsAt(s[1..], needle, k - 1);
    }
  }

  lemma {:induction false} ContainsWitness(s: string, needle: string) returns (k: nat)
    requires Contains(s, needle)
    ensures k + |needle| <= |s| && s[k..k + |needle|] == needle
    decreases |s|
  {
    if StartsWith(s, needle) {
      k := 0;
    } else {
      var j := ContainsWitness(s[1..], needle);
      assert s[1..][j..j + |needle|] == s[j + 1..j + 1 + |needle|];
      k := j + 1;
    }
  }

  /** The characters ECMAScript's trim() removes: WhiteSpace (including the
      Unicode space separators) and LineTerminator. */
  predicate IsJsWhitespace(c: char)
  {
    c == '\t' || c == '\n' || c == '\U{B}' || c == '\U{C}' || c == '\r' || c == ' '
    || c == '\U{A0}' || c == '\U{1680}' || ('\U{2000}' <= c <= '\U{200A}')
    || c == '\U{2028}' || c == '\U{2029}' || c == '\U{202F}' || c == '\U{205F}'
    || c == '\U{3000}' || c == '\U{FEFF}'
  }

  function TrimStart(s: string): (r: string)
    ensures |r| <= |s| && r == s[|s| - |r|..]
    ensures r == [] || !IsJsWhitespace(r[0])
    ensures forall i :: 0 <= i < |s| - |r| ==> IsJsWhitespace(s[i])
  {
    if s != [] && IsJsWhitespace(s[0]) then TrimStart(s[1..]) else s
  }

  function TrimEnd(s: string): (r: string)
    ensures |r| <= |s| && r == s[..|r|]
    ensures r == [] || !IsJsWhitespace(r[|r| - 1])
    ensures forall i :: |r| <= i < |s| ==> IsJsWhitespace(s[i])
  {
    if s != [] && IsJsWhitespace(s[|s| - 1]) then TrimEnd(s[..|s| - 1]) else s
  }

  /** String.prototype.trim(). */
  function Trim(s: string): string
  {
    TrimEnd(TrimStart(s))
  }

  /** The result of trim() is a piece of its input with no surrounding
      whitespace, and everything cut away is whitespace. */
  lemma TrimProperties(s: string)
    ensures var r := Trim(s);
      (r == [] || (!IsJsWhitespace(r[0]) && !IsJsWhitespace(r[|r| - 1])))
      && Contains(s, r)
  {
    var t := TrimStart(s);
    var r := TrimEnd(t);
    var a := |s| - |t|;
    assert t == s[a..] && r == t[..|r|];
    assert s[a..a + |r|] == s[a..][..|r|];
    if r != [] {
      assert r[0] == t[0];
    }
    ContainsAt(s, r, a);
  }

  /** A string without surrounding whitespace is its own trim. */
  lemma TrimNoop(s: string)
    requires s == [] || (!IsJsWhitespace(s[0]) && !IsJsWhitespace(s[|s| - 1]))
    ensures Trim(s) == s
  {
  }

  /** s.split(c)[0]: everything before the first occurrence of c, or all of s. */
  function BeforeFirst(s: string, c: char): (r: string)
    ensures StartsWith(s, r)
    ensures c !in r
    ensures |r| < |s| ==> s[|r|] == c
  {
    if s == [] then [] else if s[0] == c then [] else [s[0]] + BeforeFirst(s[1..], c)
  }

  /** Text before the first c is the head of a concatenation when c only
      occurs in the tail. */
  lemma {:induction false} BeforeFirstAppend(a: string, b: string, c: char)
    requires c !in a
    requires |b| > 0 && b[0] == c
    ensures BeforeFirst(a + b, c) == a
  {
    if a == [] {
      assert a + b == b;
    } else {
      assert (a + b)[1..] == a[1..] + b;
      BeforeFirstAppend(a[1..], b, c);
    }
  }
  /** Trailing whitespace makes no difference to trim(). */
  lemma {:induction false} TrimDropsTrailingWhitespace(s: string, c: char)
    requires IsJsWhitespace(c)
    ensures Trim(s + [c]) == Trim(s)
  {
    TrimStartAppend(s, [c]);
    var t := TrimStart(s);
    if t == [] {
      assert TrimStart([c]) == TrimStart([c][1..]);
      assert TrimStart(s + [c]) == [];
    } else {
      var u := t + [c];
      assert TrimStart(s + [c]) == u;
      assert u[..|u| - 1] == t;
      assert TrimEnd(u) == TrimEnd(t);
    }
  }

  lemma {:induction false} TrimStartAppend(s: string, tail: string)
    ensures TrimStart(s) != [] ==> TrimStart(s + tail) == TrimStart(s) + tail
    ensures TrimStart(s) == [] ==> TrimStart(s + tail) == TrimStart(tail)
  {
    if s == [] {
      assert s + tail == tail;
    } else {
      assert (s + tail)[0] == s[0];
      assert (s + tail)[1..] == s[1..] + tail;
      if IsJsWhitespace(s[0]) {
        TrimStartAppend(s[1..], tail);
      }
    }
  }
}
