/** The two string operations of Python the scripts rely on: the substring
    test `sub in s` and the decimal rendering of an index in an f-string. */
module Text {

  /** Python's `sub in s`: `sub` occurs somewhere in `s`. */
  predicate Contains(s: string, sub: string)
    decreases |s|
  {
    (|sub| <= |s| && s[..|sub|] == sub) || (|s| > 0 && Contains(s[1..], sub))
  }

  function Digit(d: nat): char
    requires d < 10
  {
    ('0' as int + d) as char
  }

  /** `f"{n}"` for a non-negative integer: its decimal digits, no leading zero. */
  function Decimal(n: nat): (s: string)
    ensures 1 <= |s|
    ensures n < 10 <==> |s| == 1
    ensures forall i :: 0 <= i < |s| ==> '0' <= s[i] <= '9'
    decreases n
  {
    if n < 10 then [Digit(n)] else Decimal(n / 10) + [Digit(n % 10)]
  }

  /** Distinct numbers render as distinct strings. */
  lemma {:induction false} DecimalInjective(a: nat, b: nat)
    ensures Decimal(a) == Decimal(b) ==> a == b
    decreases a
  {
    if Decimal(a) == Decimal(b) {
      if a >= 10 && b >= 10 {
        var sa, sb := Decimal(a), Decimal(b);
        assert sa[..|sa| - 1] == Decimal(a / 10);
        assert sb[..|sb| - 1] == Decimal(b / 10);
        DecimalInjective(a / 10, b / 10);
        assert sa[|sa| - 1] == Digit(a % 10);
        assert sb[|sb| - 1] == Digit(b % 10);
      }
    }
  }
}
