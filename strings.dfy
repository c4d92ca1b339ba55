/** Text operations of the JavaScript runtime that the validator and the search rely on:
    number formatting, `Array.prototype.join`, `String.prototype.toLowerCase` (ASCII letters only)
    and `String.prototype.includes`. */
module Strings {

  function Digit(d: nat): char
    requires d < 10
  {
    "0123456789"[d]
  }

  /** Decimal text of a natural number, as a template literal prints it. */
  function NatToString(n: nat): (s: string)
    ensures |s| > 0
    ensures forall i :: 0 <= i < |s| ==> '0' <= s[i] <= '9'
    decreases n
  {
    if n < 10 then [Digit(n)] else NatToString(Tens(n)) + [Digit(Units(n))]
  }

  /** `n / 10`, by repeated subtraction (kept linear for the solver; see `TensUnits`). */
  function Tens(n: nat): (q: nat)
    ensures n >= 10 ==> q < n
  {
    if n < 10 then 0 else 1 + Tens(n - 10)
  }

  /** `n % 10`, by repeated subtraction. */
  function Units(n: nat): (d: nat)
    ensures d < 10
  {
    if n < 10 then n else Units(n - 10)
  }

  /** `Tens` and `Units` are the quotient and remainder of division by ten. */
  lemma {:induction false} TensUnits(n: nat)
    ensures n == 10 * Tens(n) + Units(n)
    ensures Tens(n) == n / 10 && Units(n) == n % 10
  {
    if n >= 10 {
      TensUnits(n - 10);
    }
  }

  function IntToString(i: int): string {
    if i < 0 then "-" + NatToString(-i) else NatToString(i)
  }

  /** `parts.join(sep)`: the parts in order, with `sep` between neighbours. */
  function Join(parts: seq<string>, sep: string): string
    decreases |parts|
  {
    if |parts| == 0 then ""
    else if |parts| == 1 then parts[0]
    else Join(parts[..|parts| - 1], sep) + sep + parts[|parts| - 1]
  }

  function LowerChar(c: char): char {
    if 'A' <= c <= 'Z' then (c as int + 32) as char else c
  }

  /** `s.toLowerCase()`, restricted to the ASCII letters. */
  function Lower(s: string): (r: string)
    ensures |r| == |s|
    ensures forall i :: 0 <= i < |s| ==> r[i] == LowerChar(s[i])
  {
    seq(|s|, i requires 0 <= i < |s| => LowerChar(s[i]))
  }

  /** `s.length`: JavaScript counts UTF-16 code units, so a character outside the Basic
      Multilingual Plane (a surrogate pair) counts twice. */
  function Utf16Length(s: string): (n: nat)
    ensures |s| <= n <= 2 * |s|
    decreases |s|
  {
    if |s| == 0 then 0 else Utf16Length(s[..|s| - 1]) + (if s[|s| - 1] as int > 0xFFFF then 2 else 1)
  }

  /** On text inside the Basic Multilingual Plane, `length` counts characters. */
  lemma {:induction false} Utf16LengthBmp(s: string)
    requires forall i :: 0 <= i < |s| ==> s[i] as int <= 0xFFFF
    ensures Utf16Length(s) == |s|
    decreases |s|
  {
    if |s| > 0 {
      Utf16LengthBmp(s[..|s| - 1]);
    }
  }

  /** `s.includes(sub)`: `sub` occurs in `s` at some position (the empty string occurs everywhere). */
  function Contains(s: string, sub: string): bool
    decreases |s|
  {
    (|sub| <= |s| && s[..|sub|] == sub) || (|s| > 0 && Contains(s[1..], sub))
  }

  /** An occurrence of `sub` in `s` starting at index `i`. */
  ghost predicate OccursAt(s: string, sub: string, i: int) {
    0 <= i && i + |sub| <= |s| && s[i..i + |sub|] == sub
  }

  /** An occurrence at any index is found by `Contains`. */
  lemma {:induction false} OccursContains(s: string, sub: string, i: int)
    requires OccursAt(s, sub, i)
    ensures Contains(s, sub)
    decreases i
  {
    if i > 0 {
      assert s[1..][i - 1..i - 1 + |sub|] == s[i..i + |sub|];
      assert OccursAt(s[1..], sub, i - 1);
      OccursContains(s[1..], sub, i - 1);
    }
  }

  /** What `Contains` finds occurs at some index. */
  lemma {:induction false} ContainsOccurs(s: string, sub: string)
    requires Contains(s, sub)
    ensures exists i :: OccursAt(s, sub, i)
    decreases |s|
  {
    if |sub| <= |s| && s[..|sub|] == sub {
      assert OccursAt(s, sub, 0);
    } else {
      ContainsOccurs(s[1..], sub);
      var i :| OccursAt(s[1..], sub, i);
      assert s[i + 1..i + 1 + |sub|] == s[1..][i..i + |sub|];
      assert OccursAt(s, sub, i + 1);
    }
  }

  /** `Contains` finds exactly the strings that occur at some index. */
  lemma ContainsIffOccurs(s: string, sub: string)
    ensures Contains(s, sub) <==> exists i :: OccursAt(s, sub, i)
  {
    if Contains(s, sub) {
      ContainsOccurs(s, sub);
    }
    if exists i :: OccursAt(s, sub, i) {
      var i :| OccursAt(s, sub, i);
      OccursContains(s, sub, i);
    }
  }

  /** Every string occurs in any string built around it. */
  lemma ContainsInfix(p: string, a: string, q: string)
    ensures Contains(p + a + q, a)
  {
    var s := p + a + q;
    assert s[|p|..|p| + |a|] == a;
    assert OccursAt(s, a, |p|);
    ContainsIffOccurs(s, a);
  }

  /** Occurrence is transitive: a string inside a substring of `s` is inside `s`. */
  lemma ContainsTransitive(s: string, mid: string, sub: string)
    requires Contains(s, mid) && Contains(mid, sub)
    ensures Contains(s, sub)
  {
    ContainsIffOccurs(s, mid);
    ContainsIffOccurs(mid, sub);
    var i :| OccursAt(s, mid, i);
    var j :| OccursAt(mid, sub, j);
    forall k | 0 <= k < |sub|
      ensures s[i + j..i + j + |sub|][k] == sub[k]
    {
      assert sub[k] == mid[j..j + |sub|][k] == mid[j + k];
      assert mid[j + k] == s[i..i + |mid|][j + k] == s[i + j + k];
    }
    assert OccursAt(s, sub, i + j);
    ContainsIffOccurs(s, sub);
  }

  /** Lower-casing both sides keeps an occurrence. */
  lemma ContainsLower(s: string, sub: string)
    requires Contains(s, sub)
    ensures Contains(Lower(s), Lower(sub))
  {
    ContainsIffOccurs(s, sub);
    var i :| OccursAt(s, sub, i);
    assert Lower(s)[i..i + |sub|] == Lower(sub);
    assert OccursAt(Lower(s), Lower(sub), i);
    ContainsIffOccurs(Lower(s), Lower(sub));
  }

  /** Every part of a join occurs in the joined text. */
  lemma {:induction false} JoinContainsPart(parts: seq<string>, sep: string, k: nat)
    requires k < |parts|
    ensures Contains(Join(parts, sep), parts[k])
    decreases |parts|
  {
    if |parts| == 1 {
      assert Join(parts, sep) == "" + parts[0] + "";
      ContainsInfix("", parts[0], "");
    } else if k == |parts| - 1 {
      assert Join(parts, sep) == (Join(parts[..|parts| - 1], sep) + sep) + parts[k] + "";
      ContainsInfix(Join(parts[..|parts| - 1], sep) + sep, parts[k], "");
    } else {
      var init := parts[..|parts| - 1];
      JoinContainsPart(init, sep, k);
      assert init[k] == parts[k];
      assert Join(parts, sep) == "" + Join(init, sep) + (sep + parts[|parts| - 1]);
      ContainsInfix("", Join(init, sep), sep + parts[|parts| - 1]);
      ContainsTransitive(Join(parts, sep), Join(init, sep), parts[k]);
    }
  }
}
