/** Decimal rendering and small string helpers shared by the printers and the code generator. */
module Text {

  function DigitChar(d: nat): char
    requires d < 10
  {
    ('0' as int + d) as char
  }

  /** Decimal digits of n, as Java's `%d` and string concatenation print it. */
  function NatToString(n: nat): (s: string)
    ensures 1 <= |s|
    ensures forall k :: 0 <= k < |s| ==> '0' <= s[k] <= '9'
    decreases n
  {
    if n < 10 then [DigitChar(n)] else NatToString(n / 10) + [DigitChar(n % 10)]
  }

  /** Numbers of ten or more print with at least two digits. */
  lemma NatToStringLength(n: nat)
    ensures 10 <= n ==> 2 <= |NatToString(n)|
  {
  }

  /** Different numbers print differently. */
  lemma {:induction false} NatToStringInjective(m: nat, n: nat)
    ensures NatToString(m) == NatToString(n) ==> m == n
    decreases m + n
  {
    if NatToString(m) == NatToString(n) {
      NatToStringLength(m);
      NatToStringLength(n);
      if 10 <= m && 10 <= n {
        var sm := NatToString(m);
        assert sm[..|sm| - 1] == NatToString(m / 10);
        assert sm[..|sm| - 1] == NatToString(n / 10);
        NatToStringInjective(m / 10, n / 10);
        assert DigitChar(m % 10) == sm[|sm| - 1] == DigitChar(n % 10);
      } else {
        assert m < 10 && n < 10;
        assert DigitChar(m) == DigitChar(n);
      }
    }
  }

  /** A signed decimal: a leading '-' for negative numbers. */
  function IntToString(i: int): (s: string)
    ensures 1 <= |s|
    ensures (s[0] == '-') <==> i < 0
  {
    if i < 0 then "-" + NatToString(-i) else NatToString(i)
  }

  /** The strings of xs separated by sep. */
  function Join(sep: string, xs: seq<string>): string
  {
    if |xs| == 0 then ""
    else if |xs| == 1 then xs[0]
    else Join(sep, xs[..|xs| - 1]) + sep + xs[|xs| - 1]
  }

  /** The strings of xs with no separator. */
  function Concat(xs: seq<string>): string
  {
    if |xs| == 0 then "" else Concat(xs[..|xs| - 1]) + xs[|xs| - 1]
  }
}
