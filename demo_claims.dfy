/**
  The stateless demo stand-in for `createClaim` (actions/claims.ts). It
  reads the session but the check on it is disabled, keeps nothing, and
  always reports success with a synthetic id and a message naming the
  generated claim number. `Date.now()` is the parameter `now`.
 */
module DemoClaims {
  import opened JsText
  import opened ClaimNumbers
  import opened AuthOptions
  import opened ClaimLifecycle

  /** `ClaimResponse`: every field is optional. */
  datatype ClaimResponse = ClaimResponse(
    success: Option<bool>,
    claimId: Option<string>,
    message: Option<string>,
    error: Option<string>)

  const DemoIdPrefix: string := "demo-"
  const MessageHead: string := "\U{1F393} Versión Demo: Reclamación "
  const MessageTail: string := " simulada correctamente."

  /** The demo `createClaim`: success whatever the session and the data. */
  function CreateClaim(session: Option<SessionUser>, data: ClaimInput, draw: RandomDraw, now: nat): (r: ClaimResponse)
    ensures r.success == Some(true) && r.error == None
    ensures r.claimId.Some? && StartsWith(r.claimId.value, DemoIdPrefix)
    ensures r.claimId.Some? && r.claimId.value[|DemoIdPrefix|..] == NatToDecimal(now)
    ensures r.message == Some(MessageHead + ClaimNumber(draw) + MessageTail)
    ensures r.message.Some? && Contains(r.message.value, ClaimNumber(draw))
  {
    var number := ClaimNumber(draw);
    ContainsSuffix(MessageHead, number);
    ContainsInLeft(MessageHead + number, MessageTail, number);
    ClaimResponse(Some(true), Some(DemoIdPrefix + NatToDecimal(now)), Some(MessageHead + number + MessageTail), None)
  }

  /** The answer's message announces "FNOL-" and a six-digit number in [100000, 999999], between the fixed texts. */
  lemma MessageNamesValidNumber(session: Option<SessionUser>, data: ClaimInput, draw: RandomDraw, now: nat)
    ensures CreateClaim(session, data, draw, now).message.Some?
    ensures exists v: nat :: 100000 <= v <= 999999 && |NatToDecimal(v)| == 6 &&
              CreateClaim(session, data, draw, now).message.value == MessageHead + ("FNOL-" + NatToDecimal(v)) + MessageTail
  {
    var v := ClaimNumberValue(draw);
    assert ClaimNumber(draw) == "FNOL-" + NatToDecimal(v);
    assert |NatToDecimal(v)| == 6 by {
      assert IsFnolNumber(ClaimNumber(draw));
    }
  }

  /** No authentication: a signed-out caller gets the same answer as a signed-in one. */
  lemma NoSessionRequired(user: SessionUser, data: ClaimInput, draw: RandomDraw, now: nat)
    ensures CreateClaim(None, data, draw, now) == CreateClaim(Some(user), data, draw, now)
  {
  }
}
