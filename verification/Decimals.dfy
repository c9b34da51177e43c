/** What `std::stod` makes of decimal text, as an exact real. */
module Decimals {
  import opened Options

  predicate IsDigit(c: char) { '0' <= c <= '9' }

  function DigitsEnd(s: string, p: nat): (q: nat)
    requires p <= |s|
    ensures p <= q <= |s|
    ensures forall k :: p <= k < q ==> IsDigit(s[k])
    ensures q < |s| ==> !IsDigit(s[q])
    decreases |s| - p
  {
    if p < |s| && IsDigit(s[p]) then DigitsEnd(s, p + 1) else p
  }

  lemma {:induction false} DigitsEndIs(s: string, p: nat, q: nat)
    requires p <= q <= |s| && (forall k :: p <= k < q ==> IsDigit(s[k]))
    requires q < |s| ==> !IsDigit(s[q])
    ensures DigitsEnd(s, p) == q
    decreases q - p
  {
    if p < q {
      DigitsEndIs(s, p + 1, q);
    }
  }

  predicate AllDigits(s: string) {
    forall k :: 0 <= k < |s| ==> IsDigit(s[k])
  }

  function DigitValue(c: char): nat
    requires IsDigit(c)
  {
    c as int - '0' as int
  }

  /** The natural number written by decimal digits, 0 for none. */
  function NatOf(s: string): nat
    requires AllDigits(s)
  {
    if s == "" then 0 else 10 * NatOf(s[..|s| - 1]) + DigitValue(s[|s| - 1])
  }

  function PowerOfTen(n: nat): (r: int)
    ensures r > 0
  {
    if n == 0 then 1 else 10 * PowerOfTen(n - 1)
  }

  /**
   * The longest prefix that is a decimal number: sign, digits, point, digits, exponent. `None` where
   * the conversion throws. Ranges and rounding of doubles are not part of this model.
   */
  function Stod(s: string): Option<real> {
    var signed := s != "" && (s[0] == '-' || s[0] == '+');
    var p := if signed then 1 else 0;
    var q := DigitsEnd(s, p);
    var r := if q < |s| && s[q] == '.' then DigitsEnd(s, q + 1) else q;
    var whole := s[p..q];
    var fraction := if q < |s| && s[q] == '.' then s[q + 1..r] else "";
    if whole == "" && fraction == "" then None
    else
      var mantissa := NatOf(whole) as real + NatOf(fraction) as real / PowerOfTen(|fraction|) as real;
      var magnitude := Scale(mantissa, ExponentAt(s, r));
      Some(if signed && s[0] == '-' then -magnitude else magnitude)
  }

  /** The exponent written at `p`, 0 if there is none. */
  function ExponentAt(s: string, p: nat): int
    requires p <= |s|
  {
    if p < |s| && (s[p] == 'e' || s[p] == 'E') then
      var signed := p + 1 < |s| && (s[p + 1] == '-' || s[p + 1] == '+');
      var q := if signed then p + 2 else p + 1;
      var digits := s[q..DigitsEnd(s, q)];
      if signed && s[p + 1] == '-' then -(NatOf(digits) as int) else NatOf(digits) as int
    else 0
  }

  function Scale(m: real, e: int): real {
    if e >= 0 then m * PowerOfTen(e) as real else m / PowerOfTen(-e) as real
  }
}
