/**
 * The string operations the agent relies on, with Python's semantics:
 * `str.isspace` whitespace, `str.strip`, `str.lower` (ASCII letters only),
 * substring tests (`k in s`), `any(k in s for k in keys)` and `" ".join`.
 */
module Text {

  /** The characters Python's `str.isspace`, `str.strip()` and the regex class `\s` treat as whitespace. */
  predicate IsSpace(c: char) {
    var n := c as int;
    n == 0x20 || 0x09 <= n <= 0x0D || 0x1C <= n <= 0x1F || n == 0x85 || n == 0xA0
    || n == 0x1680 || 0x2000 <= n <= 0x200A || n == 0x2028 || n == 0x2029
    || n == 0x202F || n == 0x205F || n == 0x3000
  }

  /** The regex word class `\w`, restricted to ASCII. */
  predicate IsWordChar(c: char) {
    'a' <= c <= 'z' || 'A' <= c <= 'Z' || '0' <= c <= '9' || c == '_'
  }

  function LowerChar(c: char): char {
    if 'A' <= c <= 'Z' then (c as int + 32) as char else c
  }

  /** `s.lower()` for ASCII letters. */
  function Lower(s: string): string {
    seq(|s|, i requires 0 <= i < |s| => LowerChar(s[i]))
  }

  function StripLeft(s: string): string {
    if |s| > 0 && IsSpace(s[0]) then StripLeft(s[1..]) else s
  }

  function StripRight(s: string): string {
    if |s| > 0 && IsSpace(s[|s| - 1]) then StripRight(s[..|s| - 1]) else s
  }

  /** `s.strip()`: leading and trailing whitespace removed. */
  function Strip(s: string): string {
    StripRight(StripLeft(s))
  }

  lemma {:induction false} StripLeftBounds(s: string)
    ensures var r := StripLeft(s); |r| <= |s| && r == s[|s| - |r|..]
    ensures var r := StripLeft(s); r == [] || !IsSpace(r[0])
    ensures var r := StripLeft(s); forall i :: 0 <= i < |s| - |r| ==> IsSpace(s[i])
  {
    if |s| > 0 && IsSpace(s[0]) {
      StripLeftBounds(s[1..]);
      var r := StripLeft(s[1..]);
      forall i | 0 <= i < |s| - |r| ensures IsSpace(s[i]) {
        if i > 0 { assert s[i] == s[1..][i - 1]; }
      }
    }
  }

  lemma {:induction false} StripRightBounds(s: string)
    ensures var r := StripRight(s); |r| <= |s| && r == s[..|r|]
    ensures var r := StripRight(s); r == [] || !IsSpace(r[|r| - 1])
    ensures var r := StripRight(s); forall i :: |r| <= i < |s| ==> IsSpace(s[i])
  {
    if |s| > 0 && IsSpace(s[|s| - 1]) {
      StripRightBounds(s[..|s| - 1]);
    }
  }

  /** The stripped string has no whitespace at either end and is an infix of its input. */
  lemma StripTrims(s: string)
    ensures var r := Strip(s); r == [] || (!IsSpace(r[0]) && !IsSpace(r[|r| - 1]))
    ensures var r := Strip(s); |r| <= |s|
    ensures var r := Strip(s); exists lo :: OccursAt(s, r, lo)
  {
    var l := StripLeft(s);
    StripLeftBounds(s);
    StripRightBounds(l);
    var r := StripRight(l);
    if r != [] {
      assert r[0] == l[0];
    }
    var lo := |s| - |l|;
    assert s[lo..lo + |r|] == l[..|r|];
    assert OccursAt(s, r, lo);
  }

  predicate OccursAt(s: string, k: string, i: int) {
    0 <= i && i + |k| <= |s| && s[i..i + |k|] == k
  }

  /** Python's `k in s` on strings. */
  predicate Contains(s: string, k: string) {
    exists i :: 0 <= i <= |s| - |k| && OccursAt(s, k, i)
  }

  /** Python's `any(k in s for k in keys)`. */
  predicate AnyIn(s: string, keys: seq<string>) {
    exists j :: 0 <= j < |keys| && Contains(s, keys[j])
  }

  lemma ContainsWitness(s: string, k: string, i: nat)
    requires i + |k| <= |s| && s[i..i + |k|] == k
    ensures Contains(s, k)
  {
    assert OccursAt(s, k, i);
  }

  lemma AnyInWitness(s: string, keys: seq<string>, j: nat, i: nat)
    requires j < |keys| && i + |keys[j]| <= |s| && s[i..i + |keys[j]|] == keys[j]
    ensures AnyIn(s, keys)
  {
    ContainsWitness(s, keys[j], i);
  }

  /** A substring of the middle part is a substring of the whole. */
  lemma ContainsInfix(a: string, b: string, c: string, k: string)
    requires Contains(b, k)
    ensures Contains(a + b + c, k)
  {
    var i :| 0 <= i <= |b| - |k| && OccursAt(b, k, i);
    var s := a + b + c;
    assert s[|a| + i..|a| + i + |k|] == b[i..i + |k|];
    ContainsWitness(s, k, |a| + i);
  }

  lemma ContainsLeft(a: string, b: string, k: string)
    requires Contains(a, k)
    ensures Contains(a + b, k)
  {
    var i :| 0 <= i <= |a| - |k| && OccursAt(a, k, i);
    assert (a + b)[i..i + |k|] == a[i..i + |k|];
    ContainsWitness(a + b, k, i);
  }

  lemma ContainsRight(a: string, b: string, k: string)
    requires Contains(b, k)
    ensures Contains(a + b, k)
  {
    var i :| 0 <= i <= |b| - |k| && OccursAt(b, k, i);
    assert (a + b)[|a| + i..|a| + i + |k|] == b[i..i + |k|];
    ContainsWitness(a + b, k, |a| + i);
  }

  /** Being a substring is transitive. */
  lemma ContainsTrans(s: string, m: string, k: string)
    requires Contains(s, m) && Contains(m, k)
    ensures Contains(s, k)
  {
    var i :| 0 <= i <= |s| - |m| && OccursAt(s, m, i);
    var j :| 0 <= j <= |m| - |k| && OccursAt(m, k, j);
    forall t | 0 <= t < |k|
      ensures s[i + j..i + j + |k|][t] == k[t]
    {
      assert s[i..i + |m|][j + t] == m[j + t];
      assert m[j..j + |k|][t] == k[t];
    }
    assert s[i + j..i + j + |k|] == k;
    ContainsWitness(s, k, i + j);
  }

  /** The texts `f` gives the items, concatenated in order. */
  function ConcatMap<T>(items: seq<T>, f: T -> string): string {
    if items == [] then ""
    else ConcatMap(items[..|items| - 1], f) + f(items[|items| - 1])
  }

  lemma {:induction false} ConcatMapHasEveryPart<T>(items: seq<T>, f: T -> string, i: nat)
    requires i < |items|
    ensures Contains(ConcatMap(items, f), f(items[i]))
  {
    var init := items[..|items| - 1];
    var before, part, final := ConcatMap(init, f), f(items[i]), f(items[|items| - 1]);
    assert ConcatMap(items, f) == before + final;
    if i == |items| - 1 {
      assert (before + part)[|before|..|before| + |part|] == part;
      ContainsWitness(before + part, part, |before|);
    } else {
      assert init[i] == items[i];
      ConcatMapHasEveryPart(init, f, i);
      ContainsInfix("", before, final, part);
      assert "" + before + final == before + final;
    }
  }

  /** `" ".join(parts)`. */
  function JoinSpace(parts: seq<string>): string {
    if |parts| == 0 then ""
    else if |parts| == 1 then parts[0]
    else parts[0] + " " + JoinSpace(parts[1..])
  }

  function DigitChar(d: nat): char
    requires d < 10
  {
    "0123456789"[d]
  }

  /** `str(n)` for a natural number: its decimal digits. */
  function NatToString(n: nat): string {
    if n < 10 then [DigitChar(n)] else NatToString(n / 10) + [DigitChar(n % 10)]
  }
}
