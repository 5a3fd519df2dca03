/**
 * The string primitives the engine relies on, restricted to ASCII: `str.lower()`,
 * the `in` operator on strings, `str.split()`, `', '.join(...)`, `str(n)` and `int(digits)`.
 */
module Text {

  /** Whitespace as `str.isspace()`, `str.split()` and the regular-expression class `\s` see it. */
  predicate IsSpace(c: char) {
    c == ' ' || 9 <= c as int <= 13 || 28 <= c as int <= 31 || c as int == 0x85 || c as int == 0xA0
    || c as int == 0x1680 || 0x2000 <= c as int <= 0x200A || c as int == 0x2028 || c as int == 0x2029
    || c as int == 0x202F || c as int == 0x205F || c as int == 0x3000
  }

  predicate IsDigit(c: char) {
    '0' <= c <= '9'
  }

  function LowerChar(c: char): char {
    if 'A' <= c <= 'Z' then (c as int - 'A' as int + 'a' as int) as char else c
  }

  /** `s.lower()` on ASCII text. */
  function Lower(s: string): (r: string)
    ensures |r| == |s|
    ensures forall i :: 0 <= i < |s| ==> r[i] == LowerChar(s[i])
  {
    seq(|s|, i requires 0 <= i < |s| => LowerChar(s[i]))
  }

  /** Lower-casing twice is lower-casing once. */
  lemma LowerIdempotent(s: string)
    ensures Lower(Lower(s)) == Lower(s)
  {
  }

  /** `part` occurs in `s` starting at index `i`. */
  predicate OccursAt(s: string, part: string, i: int) {
    0 <= i <= |s| - |part| && s[i..i + |part|] == part
  }

  /** Python's `part in s` for strings: substring containment (the empty string is in every string). */
  predicate Contains(s: string, part: string) {
    exists i | 0 <= i <= |s| - |part| :: OccursAt(s, part, i)
  }

  /** Containment is transitive: a text holding `mid` holds everything `mid` holds. */
  lemma ContainsTrans(s: string, mid: string, part: string)
    requires Contains(s, mid) && Contains(mid, part)
    ensures Contains(s, part)
  {
    var i :| 0 <= i <= |s| - |mid| && OccursAt(s, mid, i);
    var j :| 0 <= j <= |mid| - |part| && OccursAt(mid, part, j);
    forall k | 0 <= k < |part|
      ensures s[i + j + k] == part[k]
    {
      assert s[i..i + |mid|][j + k] == mid[j + k];
      assert mid[j..j + |part|][k] == part[k];
    }
    assert s[i + j..i + j + |part|] == part;
    assert OccursAt(s, part, i + j);
  }

  /** The words of `s` as `s.split()` returns them; `cur` is the word being read. */
  function SplitFrom(s: string, cur: string): seq<string>
    decreases |s|
  {
    if s == [] then (if cur == [] then [] else [cur])
    else if IsSpace(s[0]) then
      (if cur == [] then [] else [cur]) + SplitFrom(s[1..], [])
    else SplitFrom(s[1..], cur + [s[0]])
  }

  /** `s.split()`: maximal runs of non-whitespace, empty words dropped. */
  function Words(s: string): seq<string> {
    SplitFrom(s, [])
  }

  /** `sep.join(xs)`. */
  function Join(xs: seq<string>, sep: string): string {
    if xs == [] then ""
    else if |xs| == 1 then xs[0]
    else Join(xs[..|xs| - 1], sep) + sep + xs[|xs| - 1]
  }

  function DigitChar(d: nat): (c: char)
    requires d < 10
    ensures IsDigit(c)
  {
    ('0' as int + d) as char
  }

  function DigitValue(c: char): nat
    requires IsDigit(c)
  {
    c as int - '0' as int
  }

  /** `str(n)` for a natural number: its decimal digits, no leading zero. */
  function NatToString(n: nat): (r: string)
    ensures |r| > 0
    ensures forall k :: 0 <= k < |r| ==> IsDigit(r[k])
  {
    if n < 10 then [DigitChar(n)] else NatToString(n / 10) + [DigitChar(n % 10)]
  }

  /** `int(s)` for a run of decimal digits (leading zeros allowed). */
  function DigitsValue(s: string): nat
    requires forall k :: 0 <= k < |s| ==> IsDigit(s[k])
  {
    if s == [] then 0 else DigitsValue(s[..|s| - 1]) * 10 + DigitValue(s[|s| - 1])
  }

  /** `int(str(n)) == n`: reading back a rendered count gives the count. */
  lemma {:induction false} DigitsValueOfNatToString(n: nat)
    ensures DigitsValue(NatToString(n)) == n
  {
    if n >= 10 {
      var r := NatToString(n);
      assert r[..|r| - 1] == NatToString(n / 10);
      DigitsValueOfNatToString(n / 10);
    }
  }
}
