/** String helpers shared by the Kotlin and Python code: ASCII case folding
    (Kotlin `equals`/`contains` with `ignoreCase = true`, Python `str.lower`),
    `joinToString`/`str.join`, and decimal rendering of naturals. */
module Text {
  import opened Wrappers

  predicate IsUpper(c: char) {
    'A' <= c <= 'Z'
  }

  function LowerChar(c: char): (r: char)
    ensures !IsUpper(r)
    ensures IsUpper(c) ==> r as int == c as int + 32
    ensures !IsUpper(c) ==> r == c
  {
    if IsUpper(c) then (c as int + 32) as char else c
  }

  /** ASCII lower-casing, character by character. */
  function Lower(s: string): (r: string)
    ensures |r| == |s|
    ensures forall i :: 0 <= i < |s| ==> r[i] == LowerChar(s[i])
  {
    if s == [] then [] else [LowerChar(s[0])] + Lower(s[1..])
  }

  /** Kotlin `a.equals(b, ignoreCase = true)`. */
  predicate EqualsIgnoreCase(a: string, b: string) {
    Lower(a) == Lower(b)
  }

  /** `needle` occurs in `hay` at index `i`, ignoring case. */
  predicate OccursAtIgnoreCase(hay: string, needle: string, i: nat) {
    i + |needle| <= |hay| && EqualsIgnoreCase(hay[i..i + |needle|], needle)
  }

  /** Kotlin `hay.contains(needle, ignoreCase = true)`; the empty needle always occurs. */
  predicate ContainsIgnoreCase(hay: string, needle: string) {
    exists i: nat | i <= |hay| :: OccursAtIgnoreCase(hay, needle, i)
  }

  /** `needle` occurs in `hay` at index `i`, with case. */
  predicate OccursAt(hay: string, needle: string, i: nat) {
    i + |needle| <= |hay| && hay[i..i + |needle|] == needle
  }

  /** Kotlin `hay.contains(needle)`. */
  predicate Contains(hay: string, needle: string) {
    exists i: nat | i <= |hay| :: OccursAt(hay, needle, i)
  }

  /** Python `sep.join(parts)`, Kotlin `joinToString(sep)`. */
  function Join(sep: string, parts: seq<string>): (r: string)
    ensures parts == [] ==> r == ""
    ensures |parts| == 1 ==> r == parts[0]
  {
    if parts == [] then ""
    else if |parts| == 1 then parts[0]
    else parts[0] + sep + Join(sep, parts[1..])
  }

  function DigitChar(d: nat): char
    requires d < 10
  {
    "0123456789"[d]
  }

  /** Decimal rendering of a natural number, as string templates print an `Int`. */
  function NatToString(n: nat): (r: string)
    ensures |r| >= 1
  {
    if n < 10 then [DigitChar(n)] else NatToString(n / 10) + [DigitChar(n % 10)]
  }

  /** Decimal rendering of an integer, with a leading '-' when negative. */
  function IntToString(n: int): (r: string)
    ensures n >= 0 ==> r == NatToString(n)
    ensures n < 0 ==> r == "-" + NatToString(-n)
  {
    if n < 0 then "-" + NatToString(-n) else NatToString(n)
  }

  lemma {:induction false} LowerIdempotent(s: string)
    ensures Lower(Lower(s)) == Lower(s)
  {
    var l := Lower(s);
    assert |Lower(l)| == |l|;
    forall i | 0 <= i < |s| ensures Lower(l)[i] == l[i] {
    }
  }

  /** A string always contains itself, whatever its case. */
  lemma ContainsSelf(a: string, b: string)
    requires EqualsIgnoreCase(a, b)
    ensures ContainsIgnoreCase(a, b)
  {
    assert a[0..|b|] == a;
    assert OccursAtIgnoreCase(a, b, 0);
  }

  /** The value of the first entry of `table` named exactly `t`: a Kotlin
      `when` over string constants, or a map with string keys, read as a
      table in the order written. */
  function Lookup<K>(t: string, table: seq<(string, K)>): Option<K> {
    if table == [] then None
    else if table[0].0 == t then Some(table[0].1)
    else Lookup(t, table[1..])
  }
}
