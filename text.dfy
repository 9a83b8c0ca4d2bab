/**
 * String helpers after JavaScript's `includes`, `indexOf` and decimal rendering, and an
 * ASCII-only `toLowerCase`: letters outside A-Z are left as they are, where JavaScript's
 * Unicode lower-casing would map them (`É` to `é`, the Kelvin sign to `k`, `İ` to two
 * characters).
 */
module Text {
  import opened Wrappers

  /** `toLowerCase` on one character, restricted to ASCII: only `A`-`Z` are mapped. */
  function LowerChar(c: char): (r: char)
    ensures 'A' <= c <= 'Z' ==> r as int == c as int + 32
    ensures !('A' <= c <= 'Z') ==> r == c
  {
    if 'A' <= c <= 'Z' then (c as int + 32) as char else c
  }

  /** `toLowerCase` on a string, character by character with `LowerChar`. */
  function Lower(s: string): (r: string)
    ensures |r| == |s|
    ensures forall i :: 0 <= i < |s| ==> r[i] == LowerChar(s[i])
  {
    seq(|s|, i requires 0 <= i < |s| => LowerChar(s[i]))
  }

  /** `s.includes(k)`: `k` occurs in `s` at some position. */
  predicate Contains(s: string, k: string)
  {
    exists i :: 0 <= i <= |s| - |k| && OccursAt(s, k, i)
  }

  /** `k` occurs in `s` starting at position `i`. */
  predicate OccursAt(s: string, k: string, i: int)
  {
    0 <= i && i + |k| <= |s| && s[i..i + |k|] == k
  }

  /** The empty string occurs in every string (so an empty search term matches everything). */
  lemma ContainsEmpty(s: string)
    ensures Contains(s, "")
  {
    assert OccursAt(s, "", 0);
  }

  /** A keyword holding a character that `s` lacks does not occur in `s`. */
  lemma MissingCharNotContained(s: string, k: string, j: nat)
    requires j < |k| && k[j] !in s
    ensures !Contains(s, k)
  {
    forall i | 0 <= i <= |s| - |k| ensures !OccursAt(s, k, i) {
      assert s[i..i + |k|][j] == s[i + j];
      assert s[i + j] in s;
    }
  }

  /** A string occurs in itself. */
  lemma ContainsSelf(k: string)
    ensures Contains(k, k)
  {
    assert OccursAt(k, k, 0);
  }

  /** An occurrence inside `a` is an occurrence inside `p + a + q`. */
  lemma ContainsWithin(p: string, a: string, q: string, k: string)
    requires Contains(a, k)
    ensures Contains(p + a + q, k)
  {
    var i :| 0 <= i <= |a| - |k| && OccursAt(a, k, i);
    var s := p + a + q;
    assert s[|p| + i..|p| + i + |k|] == a[i..i + |k|];
    assert OccursAt(s, k, |p| + i);
  }

  /** An occurrence of an occurrence is an occurrence. */
  lemma ContainsTransitive(s: string, m: string, k: string)
    requires Contains(s, m) && Contains(m, k)
    ensures Contains(s, k)
  {
    var i :| 0 <= i <= |s| - |m| && OccursAt(s, m, i);
    var j :| 0 <= j <= |m| - |k| && OccursAt(m, k, j);
    assert s[i..i + |m|] == m;
    forall t | 0 <= t < |k| ensures s[i + j..i + j + |k|][t] == k[t] {
      assert s[i + j..i + j + |k|][t] == s[i + j + t] == s[i..i + |m|][j + t];
      assert m[j + t] == m[j..j + |k|][t];
    }
    assert OccursAt(s, k, i + j);
  }

  /** The texts `f(x)` of the elements, joined in order (a `forEach` that appends to a string). */
  function ConcatMap<T>(s: seq<T>, f: T -> string): string
  {
    if s == [] then "" else ConcatMap(s[..|s| - 1], f) + f(s[|s| - 1])
  }

  /** Joining one more element appends its text. */
  lemma ConcatMapSnoc<T>(s: seq<T>, f: T -> string, i: nat)
    requires i < |s|
    ensures ConcatMap(s[..i + 1], f) == ConcatMap(s[..i], f) + f(s[i])
  {
    assert s[..i + 1][..i] == s[..i];
  }

  /** Every element's text appears in the joined text. */
  lemma {:induction false} ConcatMapContains<T>(s: seq<T>, f: T -> string, i: nat)
    requires i < |s|
    ensures Contains(ConcatMap(s, f), f(s[i]))
  {
    var init := s[..|s| - 1];
    ContainsSelf(f(s[i]));
    if i == |s| - 1 {
      ContainsWithin(ConcatMap(init, f), f(s[i]), "", f(s[i]));
      assert ConcatMap(init, f) + f(s[i]) + "" == ConcatMap(s, f);
    } else {
      assert init[i] == s[i];
      ConcatMapContains(init, f, i);
      ContainsWithin("", ConcatMap(init, f), f(s[|s| - 1]), f(s[i]));
      assert "" + ConcatMap(init, f) + f(s[|s| - 1]) == ConcatMap(s, f);
    }
  }

  /** `s.indexOf(c)` as an option: the first position of `c`. */
  function IndexOf(s: string, c: char): (r: Option<nat>)
    ensures r.None? <==> c !in s
    ensures r.Some? ==> r.value < |s| && s[r.value] == c && c !in s[..r.value]
  {
    if s == [] then None
    else if s[0] == c then Some(0)
    else
      match IndexOf(s[1..], c)
      case None => None
      case Some(i) =>
        assert s[..i + 1] == [s[0]] + s[1..][..i];
        Some(i + 1)
  }

  /** `s.split(c)[0]`: everything before the first `c`, or all of `s` if there is none. */
  function Before(s: string, c: char): (r: string)
    ensures c !in r
    ensures r == s || (|r| < |s| && s[|r|] == c)
    ensures r <= s
  {
    match IndexOf(s, c)
    case None => s
    case Some(i) => s[..i]
  }

  predicate IsDigit(c: char)
  {
    '0' <= c <= '9'
  }

  function DigitChar(d: nat): (c: char)
    requires d < 10
    ensures IsDigit(c) && c as int - '0' as int == d
  {
    ('0' as int + d) as char
  }

  function DigitValue(c: char): nat
    requires IsDigit(c)
  {
    c as int - '0' as int
  }

  /** `String(n)` for a non-negative integer: its decimal digits, no leading zero. */
  function NatText(n: nat): (r: string)
    ensures 1 <= |r|
    ensures forall i :: 0 <= i < |r| ==> IsDigit(r[i])
    ensures |r| > 1 ==> r[0] != '0'
    ensures n < 10 <==> |r| == 1
  {
    if n < 10 then [DigitChar(n)] else NatText(n / 10) + [DigitChar(n % 10)]
  }

  /** Reads a string of decimal digits back as a number. */
  function DigitsValue(s: string): nat
    requires forall i :: 0 <= i < |s| ==> IsDigit(s[i])
  {
    if s == [] then 0 else DigitsValue(s[..|s| - 1]) * 10 + DigitValue(s[|s| - 1])
  }

  lemma {:induction false} NatTextRoundTrip(n: nat)
    ensures DigitsValue(NatText(n)) == n
  {
    if n >= 10 {
      NatTextRoundTrip(n / 10);
      var r := NatText(n);
      assert r[..|r| - 1] == NatText(n / 10);
    }
  }

  /** Strict lexicographic order by character code. */
  predicate StrLt(a: string, b: string)
  {
    if b == [] then false
    else if a == [] then true
    else if a[0] != b[0] then a[0] < b[0]
    else StrLt(a[1..], b[1..])
  }

  /** Lexicographic order by character code (the store's ascending order on text). */
  predicate StrLe(a: string, b: string)
  {
    a == b || StrLt(a, b)
  }

  lemma {:induction false} StrLeTotal(a: string, b: string)
    ensures StrLe(a, b) || StrLe(b, a)
  {
    if a != [] && b != [] && a[0] == b[0] {
      StrLeTotal(a[1..], b[1..]);
      if a[1..] == b[1..] {
        assert a == [a[0]] + a[1..] && b == [b[0]] + b[1..];
      }
    }
  }

  lemma {:induction false} StrLtTransitive(a: string, b: string, c: string)
    requires StrLt(a, b) && StrLt(b, c)
    ensures StrLt(a, c)
  {
    if a != [] && a[0] == b[0] && b[0] == c[0] {
      StrLtTransitive(a[1..], b[1..], c[1..]);
    }
  }

  lemma StrLeTransitive(a: string, b: string, c: string)
    requires StrLe(a, b) && StrLe(b, c)
    ensures StrLe(a, c)
  {
    if a != b && b != c {
      StrLtTransitive(a, b, c);
    }
  }
}
