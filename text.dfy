/** String operations of the JavaScript standard library that the core relies on. */
module Text {

  /** `s.includes(t)`. */
  predicate Contains(s: string, t: string)
    decreases |s|
  {
    if |s| < |t| then false
    else s[..|t|] == t || (|s| > 0 && Contains(s[1..], t))
  }

  /** Whatever surrounds it, a string contains each of its own pieces. */
  lemma {:induction false} ContainsInfix(a: string, t: string, b: string)
    ensures Contains(a + t + b, t)
    decreases |a|
  {
    if |a| == 0 {
      assert (a + t + b)[..|t|] == t;
    } else {
      assert (a + t + b)[1..] == a[1..] + t + b;
      ContainsInfix(a[1..], t, b);
    }
  }

  predicate EndsWith(s: string, t: string) {
    |t| <= |s| && s[|s| - |t|..] == t
  }

  /** Index of the first occurrence of `c` in `s`. */
  function IndexOf(s: string, c: char): (i: nat)
    requires c in s
    ensures i < |s| && s[i] == c && c !in s[..i]
  {
    if s[0] == c then 0 else
      var j := IndexOf(s[1..], c);
      assert s[1..][..j] == s[1..j + 1];
      1 + j
  }

  /** `s.split(sep)` for a one-character separator: every part, in order, never fewer than one. */
  function Split(s: string, sep: char): (parts: seq<string>)
    ensures |parts| >= 1
    decreases |s|
  {
    if sep !in s then [s]
    else
      var i := IndexOf(s, sep);
      [s[..i]] + Split(s[i + 1..], sep)
  }

  lemma {:induction false} SplitAtFirst(a: string, sep: char, b: string)
    requires sep !in a
    ensures Split(a + [sep] + b, sep) == [a] + Split(b, sep)
  {
    var s := a + [sep] + b;
    assert s[|a|] == sep;
    assert s[..|a|] == a;
    var i := IndexOf(s, sep);
    assert i == |a|;
    assert s[..i] == a;
    assert s[i + 1..] == b;
  }

  /** `parts.join(sep)`. */
  function Join(parts: seq<string>, sep: string): string {
    if |parts| == 0 then ""
    else if |parts| == 1 then parts[0]
    else parts[0] + sep + Join(parts[1..], sep)
  }

  /** Each string of `parts` with `pad` in front. */
  function Padded(parts: seq<string>, pad: string): (r: seq<string>)
    ensures |r| == |parts| && forall i :: 0 <= i < |parts| ==> r[i] == pad + parts[i]
  {
    seq(|parts|, i requires 0 <= i < |parts| => pad + parts[i])
  }

  /** Padding the first of several parts pads their join. */
  lemma JoinPadFirst(rest: seq<string>, s: string, pad: string)
    requires |rest| >= 1
    ensures Join([pad + rest[0]] + rest[1..], s) == pad + Join(rest, s)
  {
    var q := [pad + rest[0]] + rest[1..];
    if |rest| > 1 {
      assert q[1..] == rest[1..];
    }
  }

  lemma PaddedCons(rest: seq<string>, pad: string)
    requires |rest| >= 1
    ensures [pad + rest[0]] + Padded(rest[1..], pad) == Padded(rest, pad)
  {
  }

  /**
   * Splitting a join on its separator's first character gives the parts back, each but the first still
   * carrying the rest of the separator, as long as that character occurs nowhere else.
   */
  lemma {:induction false} SplitJoin(parts: seq<string>, sep: char, pad: string)
    requires |parts| >= 1
    requires forall i :: 0 <= i < |parts| ==> sep !in parts[i]
    requires sep !in pad
    ensures Split(Join(parts, [sep] + pad), sep) == [parts[0]] + Padded(parts[1..], pad)
    decreases |parts|
  {
    if |parts| > 1 {
      var s := [sep] + pad;
      var rest := parts[1..];
      var q := [pad + rest[0]] + rest[1..];
      JoinPadFirst(rest, s, pad);
      assert Join(parts, s) == parts[0] + [sep] + Join(q, s);
      SplitAtFirst(parts[0], sep, Join(q, s));
      assert forall i :: 1 <= i < |q| ==> q[i] == parts[i + 1];
      assert sep !in q[0];
      SplitJoin(q, sep, pad);
      assert q[1..] == rest[1..];
      PaddedCons(rest, pad);
    }
  }

  function UpperChar(c: char): (u: char) {
    if 'a' <= c <= 'z' then (c as int - 32) as char else c
  }

  /** `s.toUpperCase()` on the ASCII letters; every other character is kept. */
  function ToUpper(s: string): (r: string)
    ensures |r| == |s|
    ensures forall i :: 0 <= i < |s| ==> r[i] == UpperChar(s[i])
  {
    seq(|s|, i requires 0 <= i < |s| => UpperChar(s[i]))
  }

  predicate IsSpace(c: char) {
    c == ' ' || c == '\t' || c == '\n' || c == '\r' || c == '\U{000C}' || c == '\U{000B}'
  }

  /** `r` is `s` without its leading white space. */
  predicate FrontTrimmed(s: string, r: string) {
    |r| <= |s| && r == s[|s| - |r|..] && (r == [] || !IsSpace(r[0])) &&
    forall k :: 0 <= k < |s| - |r| ==> IsSpace(s[k])
  }

  /** `r` is `s` without its trailing white space. */
  predicate BackTrimmed(s: string, r: string) {
    |r| <= |s| && r == s[..|r|] && (r == [] || !IsSpace(r[|r| - 1])) &&
    forall k :: |r| <= k < |s| ==> IsSpace(s[k])
  }

  function TrimStart(s: string): (r: string)
    ensures FrontTrimmed(s, r)
    decreases |s|
  {
    if |s| > 0 && IsSpace(s[0]) then
      var r := TrimStart(s[1..]);
      FrontTrimmedCons(s, r);
      r
    else s
  }

  lemma FrontTrimmedCons(s: string, r: string)
    requires |s| > 0 && IsSpace(s[0]) && FrontTrimmed(s[1..], r)
    ensures FrontTrimmed(s, r)
  {
    assert s[|s| - |r|..] == s[1..][|s| - 1 - |r|..];
    forall k | 1 <= k < |s| - |r|
      ensures IsSpace(s[k])
    {
      assert s[k] == s[1..][k - 1];
    }
  }

  function TrimEnd(s: string): (r: string)
    ensures BackTrimmed(s, r)
    decreases |s|
  {
    if |s| > 0 && IsSpace(s[|s| - 1]) then
      var r := TrimEnd(s[..|s| - 1]);
      BackTrimmedSnoc(s, r);
      r
    else s
  }

  lemma BackTrimmedSnoc(s: string, r: string)
    requires |s| > 0 && IsSpace(s[|s| - 1]) && BackTrimmed(s[..|s| - 1], r)
    ensures BackTrimmed(s, r)
  {
    assert s[..|r|] == s[..|s| - 1][..|r|];
    forall k | |r| <= k < |s| - 1
      ensures IsSpace(s[k])
    {
      assert s[k] == s[..|s| - 1][k];
    }
  }

  /**
   * `s.trim()`: no leading or trailing white space is left, and the rest is a contiguous part of `s`
   * with only white space around it.
   */
  function Trim(s: string): (r: string)
    ensures r == [] || (!IsSpace(r[0]) && !IsSpace(r[|r| - 1]))
    ensures exists i :: SpaceAround(s, i, r)
  {
    var t := TrimStart(s);
    var r := TrimEnd(t);
    SpaceAroundTrimmed(s, t, r);
    r
  }

  /** Cutting white space from the front of `s` (giving `t`) and then from the back (giving `r`). */
  lemma SpaceAroundTrimmed(s: string, t: string, r: string)
    requires FrontTrimmed(s, t) && BackTrimmed(t, r)
    ensures r == [] || (!IsSpace(r[0]) && !IsSpace(r[|r| - 1]))
    ensures exists i :: SpaceAround(s, i, r)
  {
    var i := |s| - |t|;
    assert r != [] ==> r[0] == t[0];
    assert r == s[i..][..|r|] == s[i..i + |r|];
    forall k | i + |r| <= k < |s|
      ensures IsSpace(s[k])
    {
      assert s[k] == t[k - i];
    }
    assert SpaceAround(s, i, r);
  }

  /** `r` sits at index `i` of `s` with only white space before and after it. */
  predicate SpaceAround(s: string, i: int, r: string) {
    0 <= i <= |s| - |r| && r == s[i..i + |r|] &&
    (forall k :: 0 <= k < i ==> IsSpace(s[k])) && (forall k :: i + |r| <= k < |s| ==> IsSpace(s[k]))
  }

  function DigitChar(d: nat): char
    requires d < 10
  {
    "0123456789"[d]
  }

  predicate IsDigit(c: char) {
    '0' <= c <= '9'
  }

  /** `n.toString()` for a natural number: its decimal digits, no leading zero. */
  function NatToString(n: nat): (s: string)
    ensures |s| >= 1
    ensures forall i :: 0 <= i < |s| ==> IsDigit(s[i])
    ensures |s| > 1 ==> s[0] != '0'
    decreases n
  {
    if n < 10 then [DigitChar(n)] else NatToString(n / 10) + [DigitChar(n % 10)]
  }

  lemma {:induction false} NatToStringLength(n: nat, k: nat)
    requires n < Pow10(k)
    ensures |NatToString(n)| <= if k == 0 then 1 else k
    decreases n
  {
    if n >= 10 {
      assert k >= 2 by { assert Pow10(0) == 1 && Pow10(1) == 10; }
      assert n / 10 < Pow10(k - 1);
      NatToStringLength(n / 10, k - 1);
    }
  }

  /** The number a string of decimal digits denotes, read most significant digit first. */
  function DecimalValue(s: string): nat
    requires forall i :: 0 <= i < |s| ==> IsDigit(s[i])
  {
    if s == [] then 0
    else
      assert IsDigit(s[|s| - 1]);
      DecimalValue(s[..|s| - 1]) * 10 + (s[|s| - 1] as int - '0' as int)
  }

  /** Reading back the digits of a number gives the number. */
  lemma {:induction false} NatToStringReadsBack(n: nat)
    ensures DecimalValue(NatToString(n)) == n
    decreases n
  {
    if n >= 10 {
      var s := NatToString(n);
      assert s[..|s| - 1] == NatToString(n / 10);
      NatToStringReadsBack(n / 10);
    }
  }

  /** Leading zeros do not change the value. */
  lemma {:induction false} LeadingZerosReadAsNothing(z: string, s: string)
    requires forall i :: 0 <= i < |z| ==> z[i] == '0'
    requires forall i :: 0 <= i < |s| ==> IsDigit(s[i])
    ensures DecimalValue(z + s) == DecimalValue(s)
    decreases |z| + |s|
  {
    if s == [] {
      assert z + s == z;
      if z != [] {
        LeadingZerosReadAsNothing(z[..|z| - 1], []);
        assert z[..|z| - 1] + [] == z[..|z| - 1];
      }
    } else {
      assert (z + s)[..|z + s| - 1] == z + s[..|s| - 1];
      LeadingZerosReadAsNothing(z, s[..|s| - 1]);
    }
  }

  function Pow10(k: nat): (p: nat)
    ensures p >= 1
  {
    if k == 0 then 1 else 10 * Pow10(k - 1)
  }

  /** `s.padStart(width, fill)`. */
  function PadStart(s: string, width: nat, fill: char): (r: string)
    ensures |r| == if |s| >= width then |s| else width
    ensures EndsWith(r, s)
    ensures forall i :: 0 <= i < |r| - |s| ==> r[i] == fill
  {
    if |s| >= width then s else seq(width - |s|, _ => fill) + s
  }
}
