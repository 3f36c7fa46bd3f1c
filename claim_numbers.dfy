/**
  The human-facing claim number that both `createClaim` actions generate
  (src/actions/claims.ts and actions/claims.ts): "FNOL-" followed by
  `Math.floor(100000 + Math.random() * 900000)`.
 */
module ClaimNumbers {
  import opened JsText

  /** The random part: always a six-digit number. */
  function ClaimNumberValue(draw: RandomDraw): (n: nat)
    ensures 100000 <= n <= 999999
  {
    100000 + FloorScaled(draw, 900000)
  }

  /** "FNOL-" and six decimal digits. */
  predicate IsFnolNumber(s: string) {
    |s| == 11 && s[..5] == "FNOL-" && forall i :: 5 <= i < 11 ==> IsDigit(s[i])
  }

  function ClaimNumber(draw: RandomDraw): (s: string)
    ensures IsFnolNumber(s)
  {
    var n := ClaimNumberValue(draw);
    assert Pow10(5) == 100000 && Pow10(6) == 1000000;
    DecimalLength(n, 6);
    "FNOL-" + NatToDecimal(n)
  }

  /** The six digits after "FNOL-" read back as the drawn value. */
  lemma ClaimNumberEncodesValue(draw: RandomDraw)
    ensures AllDigits(ClaimNumber(draw)[5..])
    ensures DecimalValue(ClaimNumber(draw)[5..]) == ClaimNumberValue(draw)
  {
    var n := ClaimNumberValue(draw);
    assert ClaimNumber(draw)[5..] == NatToDecimal(n);
    DecimalRoundTrip(n);
  }
}
