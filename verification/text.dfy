/**
  String helpers with the meaning of the Python built-ins the tools use:
  `str.rstrip`, slicing `s[:n]`, `", ".join(...)` and `str(int)`.
*/
module Text {

  /** `t` occurs somewhere inside `s`. */
  ghost predicate Contains(s: string, t: string) {
    exists i :: OccursAt(s, t, i)
  }

  /** `t` occurs in `s` starting at index `i`. */
  predicate OccursAt(s: string, t: string, i: int) {
    0 <= i <= |s| - |t| && s[i..i + |t|] == t
  }

  /** Python's `s.rstrip(c)` for a single character `c`: every trailing `c` is removed. */
  function RStrip(s: string, c: char): (r: string)
    ensures r <= s
    ensures |r| > 0 ==> r[|r| - 1] != c
    ensures forall i :: |r| <= i < |s| ==> s[i] == c
    decreases |s|
  {
    if |s| > 0 && s[|s| - 1] == c then RStrip(s[..|s| - 1], c) else s
  }

  /** `n` copies of the character `c`. */
  function Repeat(c: char, n: nat): (r: string)
    ensures |r| == n && forall i :: 0 <= i < n ==> r[i] == c
  {
    if n == 0 then [] else Repeat(c, n - 1) + [c]
  }

  /**
    The three properties of RStrip characterise it: any prefix of `s` that does
    not end in `c` and after which `s` holds only `c` is RStrip(s, c).
  */
  lemma {:induction false} RStripUnique(s: string, c: char, t: string)
    requires t <= s
    requires |t| > 0 ==> t[|t| - 1] != c
    requires forall i :: |t| <= i < |s| ==> s[i] == c
    ensures RStrip(s, c) == t
    decreases |s|
  {
    if |s| > 0 && s[|s| - 1] == c {
      assert |t| != |s|;
      RStripUnique(s[..|s| - 1], c, t);
    } else {
      assert |t| == |s|;
      assert t == s;
    }
  }

  /** Appending any number of `c` to `s` does not change what RStrip yields. */
  lemma RStripPadded(s: string, c: char, n: nat)
    ensures RStrip(s + Repeat(c, n), c) == RStrip(s, c)
  {
    var r := RStrip(s, c);
    var p := s + Repeat(c, n);
    assert r <= p by {
      assert p[..|s|] == s;
    }
    forall i | |r| <= i < |p| ensures p[i] == c {
      if i >= |s| {
        assert p[i] == Repeat(c, n)[i - |s|];
      }
    }
    RStripUnique(p, c, r);
  }

  /** Python's `s[:n]`: the first `n` characters, or all of `s` when it is shorter. */
  function Take(s: string, n: nat): (r: string)
    ensures r <= s
    ensures |r| <= n
    ensures |s| <= n ==> r == s
    ensures |s| > n ==> |r| == n
  {
    if |s| <= n then s else s[..n]
  }

  /** Python's `sep.join(items)`. */
  function Join(items: seq<string>, sep: string): string
  {
    if |items| == 0 then ""
    else if |items| == 1 then items[0]
    else items[0] + sep + Join(items[1..], sep)
  }

  /** What occurs in `b` occurs in `a + b`. */
  lemma ContainsInSuffix(a: string, b: string, u: string)
    requires Contains(b, u)
    ensures Contains(a + b, u)
  {
    var k :| OccursAt(b, u, k);
    assert (a + b)[|a| + k..|a| + k + |u|] == b[k..k + |u|];
    assert OccursAt(a + b, u, |a| + k);
  }

  /** What occurs in `a` occurs in `a + b`. */
  lemma ContainsInPrefix(a: string, b: string, u: string)
    requires Contains(a, u)
    ensures Contains(a + b, u)
  {
    var k :| OccursAt(a, u, k);
    assert (a + b)[k..k + |u|] == a[k..k + |u|];
    assert OccursAt(a + b, u, k);
  }

  /** Every item appears in the joined text. */
  lemma {:induction false} JoinMentionsEach(items: seq<string>, sep: string, i: nat)
    requires i < |items|
    ensures Contains(Join(items, sep), items[i])
  {
    if |items| == 1 {
      assert OccursAt(items[0], items[0], 0);
    } else {
      var rest := Join(items[1..], sep);
      assert Join(items, sep) == items[0] + (sep + rest);
      if i == 0 {
        assert OccursAt(items[0], items[0], 0);
        ContainsInPrefix(items[0], sep + rest, items[0]);
      } else {
        JoinMentionsEach(items[1..], sep, i - 1);
        ContainsInSuffix(sep, rest, items[i]);
        ContainsInSuffix(items[0], sep + rest, items[i]);
      }
    }
  }

  /** The parts written one after the other, as an f-string assembles its pieces. */
  function Concat(parts: seq<string>): string
  {
    if parts == [] then "" else parts[0] + Concat(parts[1..])
  }

  /** Every part appears in the assembled text. */
  lemma {:induction false} ConcatMentions(parts: seq<string>, i: nat)
    requires i < |parts|
    ensures Contains(Concat(parts), parts[i])
  {
    var s := Concat(parts);
    var rest := Concat(parts[1..]);
    assert s == parts[0] + rest;
    if i == 0 {
      assert s[0..|parts[0]|] == parts[0];
      assert OccursAt(s, parts[0], 0);
    } else {
      ConcatMentions(parts[1..], i - 1);
      var k :| OccursAt(rest, parts[i], k);
      assert s[|parts[0]| + k..|parts[0]| + k + |parts[i]|] == rest[k..k + |parts[i]|];
      assert OccursAt(s, parts[i], |parts[0]| + k);
    }
  }

  /** Occurrence is transitive: what occurs in a part of `s` occurs in `s`. */
  lemma ContainsTransitive(s: string, t: string, u: string)
    requires Contains(s, t) && Contains(t, u)
    ensures Contains(s, u)
  {
    var i :| OccursAt(s, t, i);
    var j :| OccursAt(t, u, j);
    forall m | 0 <= m < |u| ensures s[i + j + m] == u[m] {
      assert t[j + m] == s[i..i + |t|][j + m];
    }
    assert s[i + j..i + j + |u|] == u;
    assert OccursAt(s, u, i + j);
  }

  function DigitChar(d: nat): char
    requires d < 10
  {
    "0123456789"[d]
  }

  predicate IsDigit(c: char) {
    '0' <= c <= '9'
  }

  function DigitValue(c: char): nat
    requires IsDigit(c)
  {
    c as int - '0' as int
  }

  lemma DigitCharValue(d: nat)
    requires d < 10
    ensures IsDigit(DigitChar(d)) && DigitValue(DigitChar(d)) == d
  {
  }

  lemma ValueDigitChar(c: char)
    requires IsDigit(c)
    ensures DigitChar(DigitValue(c)) == c
  {
  }

  /** The number a string of decimal digits denotes, read from the left. */
  function DigitsValue(s: string): nat
    requires forall i :: 0 <= i < |s| ==> IsDigit(s[i])
  {
    if |s| == 0 then 0 else 10 * DigitsValue(s[..|s| - 1]) + DigitValue(s[|s| - 1])
  }

  /** A canonical decimal numeral: digits only, at least one, no leading zero unless it is "0". */
  predicate Canonical(s: string) {
    && |s| > 0
    && (forall i :: 0 <= i < |s| ==> IsDigit(s[i]))
    && (|s| > 1 ==> s[0] != '0')
  }

  /** Python's `str(n)` for a natural number: its decimal digits. */
  function NatToString(n: nat): (s: string)
    ensures Canonical(s)
    ensures DigitsValue(s) == n
  {
    if n < 10 then
      DigitCharValue(n);
      [DigitChar(n)]
    else
      var s := NatToString(n / 10) + [DigitChar(n % 10)];
      DigitCharValue(n % 10);
      assert s[..|s| - 1] == NatToString(n / 10);
      s
  }

  /** A numeral whose first digit is not zero denotes at least that digit's value. */
  lemma {:induction false} DigitsValueAtLeastFirst(s: string)
    requires |s| > 0 && forall i :: 0 <= i < |s| ==> IsDigit(s[i])
    ensures DigitsValue(s) >= DigitValue(s[0])
  {
    if |s| > 1 {
      DigitsValueAtLeastFirst(s[..|s| - 1]);
    }
  }

  /** Every canonical numeral is what `NatToString` prints for its value: the printer is the reader's inverse. */
  lemma {:induction false} NatToStringOfValue(s: string)
    requires Canonical(s)
    ensures NatToString(DigitsValue(s)) == s
  {
    var last := s[|s| - 1];
    ValueDigitChar(last);
    if |s| > 1 {
      var init := s[..|s| - 1];
      assert Canonical(init);
      DigitsValueAtLeastFirst(init);
      var m := DigitsValue(init);
      var n := DigitsValue(s);
      assert n == 10 * m + DigitValue(last);
      assert n / 10 == m && n % 10 == DigitValue(last);
      NatToStringOfValue(init);
      assert s == init + [last];
    }
  }

  /** Python's `str(i)` for an integer. */
  function IntToString(i: int): string
  {
    if i < 0 then "-" + NatToString(-i) else NatToString(i)
  }
}
