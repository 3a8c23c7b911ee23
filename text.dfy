/**
 * ASCII models of the Python string operations the core uses: lower(), capitalize(),
 * the `in` substring test, str.join, str(int), and the regular-expression character
 * classes \s, \d and \w.
 */
module Text {

  predicate IsUpper(c: char) { 'A' <= c <= 'Z' }

  predicate IsLowerLetter(c: char) { 'a' <= c <= 'z' }

  predicate IsDigit(c: char) { '0' <= c <= '9' }

  /** The regular-expression class \s, restricted to ASCII: space, tab to carriage return, and 0x1C to 0x1F. */
  predicate IsSpace(c: char) {
    c == ' ' || '\t' <= c <= '\r' || '\U{1C}' <= c <= '\U{1F}'
  }

  /** The regular-expression class \w, restricted to ASCII. */
  predicate IsWordChar(c: char) { IsUpper(c) || IsLowerLetter(c) || IsDigit(c) || c == '_' }

  function LowerChar(c: char): (r: char)
    ensures !IsUpper(r)
    ensures IsUpper(c) ==> r as int == c as int + 32
    ensures !IsUpper(c) ==> r == c
  {
    if IsUpper(c) then (c as int + 32) as char else c
  }

  function UpperChar(c: char): (r: char)
    ensures !IsLowerLetter(r)
    ensures !IsLowerLetter(c) ==> r == c
  {
    if IsLowerLetter(c) then (c as int - 32) as char else c
  }

  /** str.lower() */
  function Lower(s: string): (r: string)
    ensures |r| == |s|
    ensures forall i :: 0 <= i < |s| ==> r[i] == LowerChar(s[i])
  {
    seq(|s|, i requires 0 <= i < |s| => LowerChar(s[i]))
  }

  /** str.capitalize(): first character upper case, the rest lower case. */
  function Capitalize(s: string): (r: string)
    ensures |r| == |s|
    ensures s != [] ==> r[0] == UpperChar(s[0]) && r[1..] == Lower(s[1..])
  {
    if s == [] then [] else [UpperChar(s[0])] + Lower(s[1..])
  }

  /** str.title(): a letter is upper case when the character before it is not a letter, lower case otherwise. */
  function Title(s: string): (r: string)
    ensures |r| == |s|
  {
    TitleAfter(s, false)
  }

  function TitleAfter(s: string, afterLetter: bool): (r: string)
    ensures |r| == |s|
    ensures s != [] ==> r[0] == (if afterLetter then LowerChar(s[0]) else UpperChar(s[0]))
    decreases |s|
  {
    if s == [] then []
    else
      [if afterLetter then LowerChar(s[0]) else UpperChar(s[0])]
        + TitleAfter(s[1..], IsUpper(s[0]) || IsLowerLetter(s[0]))
  }

  /** Lower-casing text without capitals changes nothing. */
  lemma LowerUncapitalised(s: string)
    requires forall k :: 0 <= k < |s| ==> !IsUpper(s[k])
    ensures Lower(s) == s
  {
    assert forall k :: 0 <= k < |s| ==> Lower(s)[k] == s[k];
  }

  /** lower() works character by character, so it distributes over concatenation. */
  lemma LowerAppend(a: string, b: string)
    ensures Lower(a + b) == Lower(a) + Lower(b)
  {
    assert forall i :: 0 <= i < |a + b| ==> Lower(a + b)[i] == (Lower(a) + Lower(b))[i];
  }

  /** `s.endswith(w)` */
  predicate EndsWith(s: string, w: string) {
    |w| <= |s| && s[|s| - |w|..] == w
  }

  /** A word found in the middle part of p + s + t is contained in the whole. */
  lemma ContainsInside(p: string, s: string, w: string, i: nat, t: string)
    requires OccursAt(s, w, i)
    ensures Contains(p + s + t, w)
  {
    OccursShift(p, s, w, i);
    OccursExtend(p + s, w, |p| + i, t);
    ContainsAt(p + s + t, w, |p| + i);
  }

  /** A string ends with whatever was appended last. */
  lemma EndsWithAppend(p: string, w: string)
    ensures EndsWith(p + w, w)
  {
    assert (p + w)[|p|..] == w;
  }

  /** Two endings of one string: the shorter one ends the longer one. */
  lemma EndsWithBoth(s: string, a: string, b: string)
    requires EndsWith(s, a) && EndsWith(s, b) && |b| <= |a|
    ensures EndsWith(a, b)
  {
    assert a[|a| - |b|..] == s[|s| - |b|..];
  }

  /** A character that differs k places from the end rules out the ending. */
  lemma EndsDiffer(s: string, w: string, k: nat)
    requires k < |s| && k < |w| && s[|s| - 1 - k] != w[|w| - 1 - k]
    ensures !EndsWith(s, w)
  {
  }

  /** `w` occurs in `s` starting at index i. */
  predicate OccursAt(s: string, w: string, i: nat) {
    i + |w| <= |s| && s[i..i + |w|] == w
  }

  /** Python's `w in s` for strings. */
  predicate Contains(s: string, w: string)
    decreases |s|
  {
    OccursAt(s, w, 0) || (s != [] && Contains(s[1..], w))
  }

  /** `any(w in t for w in words)` */
  predicate AnyIn(t: string, words: seq<string>) {
    exists i :: 0 <= i < |words| && Contains(t, words[i])
  }

  lemma {:induction false} ContainsIff(s: string, w: string)
    ensures Contains(s, w) <==> exists i :: 0 <= i <= |s| && OccursAt(s, w, i)
    decreases |s|
  {
    if s != [] {
      ContainsIff(s[1..], w);
      if Contains(s[1..], w) {
        var i :| 0 <= i <= |s[1..]| && OccursAt(s[1..], w, i);
        assert s[1..][i..i + |w|] == s[i + 1..i + 1 + |w|];
        assert OccursAt(s, w, i + 1);
      }
      if i :| 0 <= i <= |s| && OccursAt(s, w, i) {
        if i > 0 {
          assert s[1..][i - 1..i - 1 + |w|] == s[i..i + |w|];
          assert OccursAt(s[1..], w, i - 1);
        }
      }
    }
  }

  /** A string containing a sub-string contains every sub-string of that. */
  lemma ContainsAt(s: string, w: string, i: nat)
    requires OccursAt(s, w, i)
    ensures Contains(s, w)
  {
    ContainsIff(s, w);
  }

  /** A word placed between a prefix and a rest occurs right after the prefix. */
  lemma OccursAfter(p: string, w: string, r: string)
    ensures OccursAt(p + w + r, w, |p|)
  {
    assert (p + w + r)[|p|..|p| + |w|] == w;
  }

  /** A string starts with itself whatever follows it. */
  lemma OccursPrefix(p: string, r: string)
    ensures OccursAt(p + r, p, 0)
  {
    assert (p + r)[..|p|] == p;
  }

  /** An occurrence survives prepending, shifted by the prefix. */
  lemma OccursShift(p: string, s: string, w: string, i: nat)
    requires OccursAt(s, w, i)
    ensures OccursAt(p + s, w, |p| + i)
  {
    assert (p + s)[|p| + i..|p| + i + |w|] == s[i..i + |w|];
  }

  /** An occurrence survives appending. */
  lemma OccursExtend(s: string, w: string, i: nat, t: string)
    requires OccursAt(s, w, i)
    ensures OccursAt(s + t, w, i)
  {
    assert (s + t)[i..i + |w|] == s[i..i + |w|];
  }

  /** str.join */
  function Join(parts: seq<string>, sep: string): (r: string)
    ensures parts == [] ==> r == ""
    ensures |parts| == 1 ==> r == parts[0]
    decreases |parts|
  {
    if parts == [] then ""
    else if |parts| == 1 then parts[0]
    else parts[0] + sep + Join(parts[1..], sep)
  }

  /** Joining one more part adds the separator and the part. */
  lemma {:induction false} JoinAppend(parts: seq<string>, sep: string, x: string)
    requires parts != []
    ensures Join(parts + [x], sep) == Join(parts, sep) + sep + x
    decreases |parts|
  {
    if |parts| > 1 {
      assert (parts + [x])[1..] == parts[1..] + [x];
      JoinAppend(parts[1..], sep, x);
    }
  }

  function DigitChar(d: nat): (c: char)
    requires d < 10
    ensures IsDigit(c)
  {
    ('0' as int + d) as char
  }

  /** str(n) for a non-negative integer. */
  function NatToString(n: nat): (r: string)
    ensures |r| > 0
    ensures forall i :: 0 <= i < |r| ==> IsDigit(r[i])
    decreases n
  {
    if n < 10 then [DigitChar(n)] else NatToString(n / 10) + [DigitChar(n % 10)]
  }

  /** str(i) for any integer. */
  function IntToString(i: int): (r: string)
    ensures |r| > 0
    ensures i >= 0 ==> r == NatToString(i)
    ensures i < 0 ==> r[0] == '-'
  {
    if i < 0 then "-" + NatToString(-i) else NatToString(i)
  }

  /** int(s) for a string of decimal digits. */
  function DigitsValue(s: string): nat
    requires forall i :: 0 <= i < |s| ==> IsDigit(s[i])
    decreases |s|
  {
    if s == [] then 0
    else
      assert IsDigit(s[|s| - 1]);
      DigitsValue(s[..|s| - 1]) * 10 + (s[|s| - 1] as int - '0' as int)
  }

  /** int(str(n)) == n */
  lemma {:induction false} DigitsValueOfNatToString(n: nat)
    ensures DigitsValue(NatToString(n)) == n
    decreases n
  {
    if n >= 10 {
      var s := NatToString(n);
      assert s[..|s| - 1] == NatToString(n / 10);
      DigitsValueOfNatToString(n / 10);
    }
  }
}
