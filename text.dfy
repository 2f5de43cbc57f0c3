/**
 * String helpers shared by the entity builders, the state table and the
 * recorder writer: ASCII case mapping (Python's str.lower / str.upper restricted
 * to ASCII letters), occurrence counting and the decimal rendering of str(int).
 */
module Text {

  function LowerChar(c: char): char {
    if 'A' <= c <= 'Z' then (c as int + 32) as char else c
  }

  function UpperChar(c: char): char {
    if 'a' <= c <= 'z' then (c as int - 32) as char else c
  }

  /** No upper-case ASCII letter occurs in `s`. */
  predicate IsLower(s: string) {
    forall i :: 0 <= i < |s| ==> !('A' <= s[i] <= 'Z')
  }

  /** str.lower(): every character mapped through LowerChar, length kept. */
  function Lower(s: string): (r: string)
    ensures |r| == |s|
    ensures forall i :: 0 <= i < |s| ==> r[i] == LowerChar(s[i])
    ensures IsLower(r)
  {
    if s == [] then [] else [LowerChar(s[0])] + Lower(s[1..])
  }

  /** Lowering distributes over concatenation. */
  lemma LowerAppend(a: string, b: string)
    ensures Lower(a + b) == Lower(a) + Lower(b)
  {
    var l, r := Lower(a + b), Lower(a) + Lower(b);
    assert |l| == |r|;
    forall i | 0 <= i < |l| ensures l[i] == r[i] {
      if i < |a| {
        assert (a + b)[i] == a[i];
      } else {
        assert (a + b)[i] == b[i - |a|];
      }
    }
  }

  /** Lowering an already lowered string changes nothing. */
  lemma LowerIdempotent(s: string)
    ensures Lower(Lower(s)) == Lower(s)
  {
    var l := Lower(s);
    assert |Lower(l)| == |l|;
    forall i | 0 <= i < |l| ensures Lower(l)[i] == l[i] {
      assert LowerChar(LowerChar(s[i])) == LowerChar(s[i]);
    }
  }

  /** Number of occurrences of `c` in `s`. */
  function Count(s: string, c: char): (n: nat)
    ensures n <= |s|
    ensures n == 0 <==> c !in s
  {
    if s == [] then 0 else (if s[0] == c then 1 else 0) + Count(s[1..], c)
  }

  function Digit(d: nat): (c: char)
    requires d < 10
    ensures '0' <= c <= '9'
  {
    ['0', '1', '2', '3', '4', '5', '6', '7', '8', '9'][d]
  }

  function DigitValue(c: char): nat
    requires '0' <= c <= '9'
  {
    c as int - '0' as int
  }

  predicate IsDigits(s: string) {
    forall i :: 0 <= i < |s| ==> '0' <= s[i] <= '9'
  }

  /** The number a string of decimal digits denotes (most significant first). */
  function DecimalValue(s: string): nat
    requires IsDigits(s)
  {
    if s == [] then 0 else DecimalValue(s[..|s| - 1]) * 10 + DigitValue(s[|s| - 1])
  }

  /** str(n) for a natural number: decimal digits without leading zeros. */
  function NatToString(n: nat): (s: string)
    ensures |s| > 0 && IsDigits(s)
    ensures |s| > 1 ==> s[0] != '0'
    ensures DecimalValue(s) == n
  {
    if n < 10 then
      var s := [Digit(n)];
      assert DigitValue(Digit(n)) == n;
      assert s[..0] == [];
      s
    else
      var prefix := NatToString(n / 10);
      var s := prefix + [Digit(n % 10)];
      assert s[..|s| - 1] == prefix;
      assert DigitValue(Digit(n % 10)) == n % 10;
      s
  }

  /** str(n) for an integer: a '-' sign exactly for negative numbers. */
  function IntToString(n: int): (s: string)
    ensures |s| > 0
    ensures s[0] == '-' <==> n < 0
    ensures n >= 0 ==> IsDigits(s) && DecimalValue(s) == n && (|s| > 1 ==> s[0] != '0')
    ensures n < 0 ==> |s| > 1 && IsDigits(s[1..]) && DecimalValue(s[1..]) == -n && (|s| > 2 ==> s[1] != '0')
  {
    if n < 0 then
      var digits := NatToString(-n);
      assert ("-" + digits)[1..] == digits;
      "-" + digits
    else
      NatToString(n)
  }
}
