/**
 * The few Python `str` operations the plugins are built from, with the
 * semantics CPython gives them:
 *  - `s[8:]`          never fails; it is empty when `s` is shorter than 8,
 *  - `s.split(sep)`   for a one-character separator: every occurrence cuts,
 *                     empty pieces are kept, the result is never empty,
 *  - `m in s`         substring test,
 *  - `str(n)`         decimal form of an integer, with a leading '-' when negative.
 */
module PyStrings {

  /** `s[k:]` for k >= 0: the suffix after the first k characters, or "" when s is shorter. */
  function DropPrefix(s: string, k: nat): (r: string)
    ensures |s| <= k ==> r == ""
    ensures k < |s| ==> s == s[..k] + r
  {
    if |s| <= k then "" else s[k..]
  }

  /** Number of occurrences of `c` in `s`. */
  function Count(s: string, c: char): nat
    decreases |s|
  {
    if |s| == 0 then 0 else (if s[0] == c then 1 else 0) + Count(s[1..], c)
  }

  lemma {:induction false} CountZero(s: string, c: char)
    ensures Count(s, c) == 0 <==> c !in s
    decreases |s|
  {
    if |s| > 0 {
      CountZero(s[1..], c);
      assert s == [s[0]] + s[1..];
    }
  }

  /** `sep.join(parts)`: the pieces with one `sep` between each neighbouring pair. */
  function Join(parts: seq<string>, sep: char): string
    decreases |parts|
  {
    if |parts| == 0 then ""
    else if |parts| == 1 then parts[0]
    else parts[0] + [sep] + Join(parts[1..], sep)
  }

  /**
   * `s.split(sep)`. The contract says what the pieces are: one more than
   * the separators in `s`, none containing the separator, and joining them
   * back with `sep` gives `s` again. SplitJoin proves that these three facts
   * determine the pieces.
   */
  function Split(s: string, sep: char): (parts: seq<string>)
    ensures |parts| == Count(s, sep) + 1
    ensures forall i :: 0 <= i < |parts| ==> sep !in parts[i]
    ensures Join(parts, sep) == s
    decreases |s|
  {
    if |s| == 0 then [""]
    else
      var rest := Split(s[1..], sep);
      if s[0] == sep then
        assert Join([""] + rest, sep) == "" + [sep] + Join(rest, sep);
        [""] + rest
      else
        var head := [s[0]] + rest[0];
        assert s == [s[0]] + s[1..];
        assert Join([head] + rest[1..], sep) == s by {
          if |rest| > 1 {
            assert Join(rest, sep) == rest[0] + [sep] + Join(rest[1..], sep);
            assert ([head] + rest[1..])[1..] == rest[1..];
          }
        }
        [head] + rest[1..]
  }

  /** A piece without the separator, followed by the separator, is split off as the first piece. */
  lemma {:induction false} SplitCons(a: string, sep: char, b: string)
    requires sep !in a
    ensures Split(a + [sep] + b, sep) == [a] + Split(b, sep)
    decreases |a|
  {
    if |a| == 0 {
      assert a + [sep] + b == [sep] + b;
      assert ([sep] + b)[1..] == b;
    } else {
      SplitCons(a[1..], sep, b);
      assert (a + [sep] + b)[1..] == a[1..] + [sep] + b;
      assert [a[0]] + a[1..] == a;
    }
  }

  /** A string without the separator splits into itself alone. */
  lemma {:induction false} SplitWhole(a: string, sep: char)
    requires sep !in a
    ensures Split(a, sep) == [a]
  {
    CountZero(a, sep);
    var parts := Split(a, sep);
    assert |parts| == 1;
  }

  /** Splitting inverts joining: `sep.join(parts).split(sep) == parts` when no part holds `sep`. */
  lemma {:induction false} SplitJoin(parts: seq<string>, sep: char)
    requires |parts| >= 1
    requires forall i :: 0 <= i < |parts| ==> sep !in parts[i]
    ensures Split(Join(parts, sep), sep) == parts
    decreases |parts|
  {
    if |parts| == 1 {
      SplitWhole(parts[0], sep);
    } else {
      SplitJoin(parts[1..], sep);
      SplitCons(parts[0], sep, Join(parts[1..], sep));
      assert [parts[0]] + parts[1..] == parts;
    }
  }

  /** `s` begins with `p`. */
  predicate StartsWith(s: string, p: string) {
    |p| <= |s| && s[..|p|] == p
  }

  /** Python's `m in s` on strings: `m` occurs in `s` at some position. */
  predicate Contains(s: string, m: string)
    decreases |s|
  {
    StartsWith(s, m) || (|s| > 0 && Contains(s[1..], m))
  }

  /** `m` starts at index `k` of `s`. */
  predicate OccursAt(s: string, m: string, k: nat) {
    k + |m| <= |s| && s[k..k + |m|] == m
  }

  /** `m` occurs in `s` if it starts at some index of `s`. */
  lemma {:induction false} ContainsAt(s: string, m: string, k: nat)
    requires OccursAt(s, m, k)
    ensures Contains(s, m)
    decreases k
  {
    if k > 0 {
      assert s[1..][k - 1..k - 1 + |m|] == s[k..k + |m|];
      ContainsAt(s[1..], m, k - 1);
    }
  }

  /** Conversely, if `s` contains `m` then `m` starts at some index of `s`. */
  lemma {:induction false} ContainsWitness(s: string, m: string)
    requires Contains(s, m)
    ensures exists k: nat :: OccursAt(s, m, k)
    decreases |s|
  {
    if StartsWith(s, m) {
      assert OccursAt(s, m, 0);
    } else {
      ContainsWitness(s[1..], m);
      var k: nat :| OccursAt(s[1..], m, k);
      assert s[k + 1..k + 1 + |m|] == s[1..][k..k + |m|];
      assert OccursAt(s, m, k + 1);
    }
  }

  /** If `s` contains `p + m` it contains `m`: a longer marker is a stricter test. */
  lemma {:induction false} ContainsSuffixOfMarker(s: string, p: string, m: string)
    requires Contains(s, p + m)
    ensures Contains(s, m)
    decreases |s|
  {
    if StartsWith(s, p + m) {
      assert s[|p|..|p| + |m|] == (p + m)[|p|..];
      ContainsAt(s, m, |p|);
    } else {
      ContainsSuffixOfMarker(s[1..], p, m);
      assert Contains(s[1..], m);
    }
  }

  predicate IsDigit(c: char) {
    '0' <= c <= '9'
  }

  predicate AllDigits(s: string) {
    forall i :: 0 <= i < |s| ==> IsDigit(s[i])
  }

  function DigitChar(d: nat): (c: char)
    requires d < 10
    ensures IsDigit(c) && c as int - '0' as int == d
  {
    ('0' as int + d) as char
  }

  /** `str(n)` for n >= 0: decimal digits, most significant first, no leading zero. */
  function NatDecimal(n: nat): (s: string)
    ensures |s| >= 1 && AllDigits(s)
    ensures s[0] == '0' ==> n == 0
    decreases n
  {
    if n < 10 then [DigitChar(n)] else NatDecimal(n / 10) + [DigitChar(n % 10)]
  }

  /** An optional '-' followed by decimal digits, at least one character in all. */
  predicate IsIntText(s: string) {
    |s| >= 1 && (if s[0] == '-' then AllDigits(s[1..]) else AllDigits(s))
  }

  /** The digits of an integer text, after its sign if it has one. */
  function Magnitude(s: string): string
    requires |s| >= 1
  {
    if s[0] == '-' then s[1..] else s
  }

  /**
   * The form `str` gives an int: an optional '-', then at least one digit,
   * with no leading zero except in "0" itself, which has no sign.
   */
  predicate IsCanonicalInt(s: string) {
    && IsIntText(s)
    && |Magnitude(s)| >= 1
    && (Magnitude(s)[0] == '0' ==> s == "0")
  }

  /** `str(i)` for any Python int. */
  function IntDecimal(i: int): (s: string)
    ensures IsCanonicalInt(s)
    ensures i < 0 <==> s[0] == '-'
  {
    if i < 0 then "-" + NatDecimal(-i) else NatDecimal(i)
  }

  /** The value of a string of decimal digits (`int(s)`), read most significant first. */
  function ParseNat(s: string): nat
    requires AllDigits(s)
    decreases |s|
  {
    if |s| == 0 then 0
    else 10 * ParseNat(s[..|s| - 1]) + (s[|s| - 1] as int - '0' as int)
  }

  /** `int(s)` for the strings IntDecimal produces. */
  function ParseInt(s: string): int
    requires IsIntText(s)
  {
    if s[0] == '-' then -(ParseNat(s[1..]) as int) else ParseNat(s)
  }

  lemma {:induction false} ParseNatDecimal(n: nat)
    ensures ParseNat(NatDecimal(n)) == n
    decreases n
  {
    if n >= 10 {
      ParseNatDecimal(n / 10);
      var s := NatDecimal(n);
      assert s[..|s| - 1] == NatDecimal(n / 10);
    }
  }

  /** `int(str(i)) == i`: the decimal form loses nothing. */
  lemma ParseIntDecimal(i: int)
    ensures ParseInt(IntDecimal(i)) == i
  {
    if i < 0 {
      ParseNatDecimal(-i);
    } else {
      ParseNatDecimal(i);
    }
  }

  /** A digit string without a leading zero is the decimal form of its value. */
  lemma {:induction false} NatDecimalParse(d: string)
    requires |d| >= 1 && AllDigits(d) && (d[0] == '0' ==> |d| == 1)
    ensures NatDecimal(ParseNat(d)) == d
    decreases |d|
  {
    var n := |d|;
    if n > 1 {
      var prefix := d[..n - 1];
      assert prefix[0] == d[0];
      NatDecimalParse(prefix);
      ParseNatPositive(prefix);
      var m := ParseNat(d);
      assert m / 10 == ParseNat(prefix) && m % 10 == d[n - 1] as int - '0' as int;
      assert d == prefix + [d[n - 1]];
    }
  }

  /** Digits that do not start with '0' have a positive value. */
  lemma {:induction false} ParseNatPositive(d: string)
    requires |d| >= 1 && AllDigits(d) && d[0] != '0'
    ensures ParseNat(d) >= 1
    decreases |d|
  {
    if |d| > 1 {
      assert d[..|d| - 1][0] == d[0];
      ParseNatPositive(d[..|d| - 1]);
    }
  }

  /**
   * A canonical integer text is `str` of its value: together with
   * ParseIntDecimal, `str` and `int` are inverse bijections between the
   * integers and the canonical texts.
   */
  lemma CanonicalIntUnique(s: string)
    requires IsCanonicalInt(s)
    ensures IntDecimal(ParseInt(s)) == s
  {
    NatDecimalParse(Magnitude(s));
    if s[0] == '-' {
      ParseNatPositive(s[1..]);
      assert s == "-" + s[1..];
    }
  }

  /** Different integers have different decimal forms. */
  lemma IntDecimalInjective(i: int, j: int)
    requires i != j
    ensures IntDecimal(i) != IntDecimal(j)
  {
    ParseIntDecimal(i);
    ParseIntDecimal(j);
  }
}
