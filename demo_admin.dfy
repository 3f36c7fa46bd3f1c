/**
  The stateless demo stand-in for `updateClaimStatus` (actions/admin.ts):
  the admin check only, then a success message; no claim is read or
  written, so it is a function of its arguments.
 */
module DemoAdmin {
  import opened JsText
  import opened AuthOptions
  import opened ClaimLifecycle

  datatype AdminResponse = AdminResponse(success: Option<bool>, message: Option<string>, error: Option<string>)

  const NotAuthorized: string := "No autorizado. Se requiere acceso de administrador."
  const UpdatedHead: string := "\U{1F393} Versión Demo: Estado actualizado a "

  /** Success, naming the requested status, exactly for an admin; otherwise the Spanish error. */
  function UpdateClaimStatus(session: Option<SessionUser>, claimId: string, status: ClaimStatus,
                             internalNote: Option<string>): (r: AdminResponse)
    ensures r.success == Some(true) <==> session.Some? && IsAdmin(session.value)
    ensures r.success != Some(true) ==> r == AdminResponse(None, None, Some(NotAuthorized))
    ensures r.success == Some(true) ==> r.error == None && r.message.Some?
    ensures r.message.Some? ==> Contains(r.message.value, StatusName(status))
  {
    if session.None? || !IsAdmin(session.value) then
      AdminResponse(None, None, Some(NotAuthorized))
    else
      var text := UpdatedHead + StatusName(status) + ".";
      ContainsSuffix(UpdatedHead, StatusName(status));
      ContainsInLeft(UpdatedHead + StatusName(status), ".", StatusName(status));
      AdminResponse(Some(true), Some(text), None)
  }

  /** The claim id and the note reach only the console: they never change the answer. */
  lemma AnswerIgnoresClaimAndNote(session: Option<SessionUser>, id1: string, id2: string,
                                  status: ClaimStatus, note1: Option<string>, note2: Option<string>)
    ensures UpdateClaimStatus(session, id1, status, note1) == UpdateClaimStatus(session, id2, status, note2)
  {
  }
}
