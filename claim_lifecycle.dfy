/**
  The claim lifecycle over the data store: `createClaim`
  (src/actions/claims.ts) and `updateClaimStatus` (src/actions/admin.ts).

  The store is an object holding the claim table, keyed by claim id, and the
  append-only activity log. Each action makes two separate writes, the claim
  first and the log entry second, with no transaction around them: either
  write can fail, modelled by a boolean parameter, and a failure of the
  second leaves the first in place. The id the store assigns to a new claim
  and the creation time are parameters; inserting under an id already in use
  fails like any other write.
 */
module ClaimLifecycle {
  import opened JsText
  import opened ClaimNumbers
  import opened AuthOptions

  datatype ClaimType = AUTO | HOME | BUSINESS

  /** The enum token of a claim type. */
  function TypeName(t: ClaimType): (name: string)
    ensures name in {"AUTO", "HOME", "BUSINESS"}
  {
    match t
    case AUTO => "AUTO"
    case HOME => "HOME"
    case BUSINESS => "BUSINESS"
  }

  datatype ClaimStatus = NEW | IN_REVIEW | CLOSED

  /** The enum token as it appears in text. */
  function StatusName(s: ClaimStatus): (name: string)
    ensures name in {"NEW", "IN_REVIEW", "CLOSED"}
  {
    match s
    case NEW => "NEW"
    case IN_REVIEW => "IN_REVIEW"
    case CLOSED => "CLOSED"
  }

  /** Distinct statuses are written differently, so a log entry names its status unambiguously. */
  lemma StatusNameInjective(s: ClaimStatus, t: ClaimStatus)
    ensures StatusName(s) == StatusName(t) <==> s == t
  {
  }

  /** The data the form submits; the server copies it into the claim unchecked. */
  datatype ClaimInput = ClaimInput(
    claimType: ClaimType,
    policyholderName: string,
    policyholderId: string,
    policyholderEmail: string,
    policyholderPhone: string,
    policyNumber: string,
    coverageType: string,
    incidentDate: int,
    location: string,
    description: string,
    damageCategory: string)

  datatype Claim = Claim(
    id: string,
    claimNumber: string,
    data: ClaimInput,
    userId: string,
    status: ClaimStatus,
    internalNotes: Option<string>,
    createdAt: int)

  datatype LogEntry = LogEntry(claimId: string, action: string, details: string)

  datatype CreateResult = Created(claimId: string) | CreateFailed(error: string)

  datatype UpdateResult = Updated | UpdateFailed(error: string)

  const Unauthorized: string := "Unauthorized"
  const FailedToCreate: string := "Failed to create claim"
  const AdminRequired: string := "Unauthorized. Admin access required."
  const FailedToUpdate: string := "Failed to update claim"

  const ClaimCreated: string := "CLAIM_CREATED"
  const StatusUpdated: string := "STATUS_UPDATED"

  /** The details of the creation entry name the submitting user and their email. */
  function CreatedDetails(user: SessionUser): (d: string)
    ensures Contains(d, user.name) && Contains(d, user.email)
  {
    var d := "Claim created by " + user.name + " (" + user.email + ")";
    assert d == "Claim created by " + user.name + (" (" + user.email + ")");
    ContainsSuffix("Claim created by ", user.name);
    ContainsInLeft("Claim created by " + user.name, " (" + user.email + ")", user.name);
    ContainsSuffix("Claim created by " + user.name + " (", user.email);
    ContainsInLeft("Claim created by " + user.name + " (" + user.email, ")", user.email);
    d
  }

  /** `internalNote` is truthy: present and not empty. */
  predicate NoteGiven(note: Option<string>) {
    note.Some? && note.value != ""
  }

  /**
    The details of a status entry: they name the new status and the admin,
    and end with "Note: <note>" when a note is given and with ". " otherwise.
   */
  function StatusDetails(status: ClaimStatus, adminName: string, note: Option<string>): (d: string)
    ensures StartsWith(d, "Status changed to " + StatusName(status) + " by admin ")
    ensures Contains(d, StatusName(status)) && Contains(d, adminName)
    ensures NoteGiven(note) ==> EndsWith(d, "Note: " + note.value)
    ensures !NoteGiven(note) ==> EndsWith(d, ". ")
  {
    var name := StatusName(status);
    var tail := if NoteGiven(note) then "Note: " + note.value else "";
    var rest := adminName + (". " + tail);
    var d := "Status changed to " + (name + (" by admin " + rest));
    assert d == "Status changed to " + name + " by admin " + rest;
    assert Contains(d, name) by {
      ContainsPrefix(name, " by admin " + rest);
      ContainsInRight("Status changed to ", name + (" by admin " + rest), name);
    }
    assert Contains(d, adminName) by {
      ContainsPrefix(adminName, ". " + tail);
      ContainsInRight(" by admin ", rest, adminName);
      ContainsInRight(name, " by admin " + rest, adminName);
      ContainsInRight("Status changed to ", name + (" by admin " + rest), adminName);
    }
    assert EndsWith(d, if NoteGiven(note) then tail else ". ") by {
      if NoteGiven(note) {
        EndsWithSuffix(". ", tail);
      } else {
        assert ". " + tail == ". ";
        EndsWithSuffix([], ". ");
      }
      var x := if NoteGiven(note) then tail else ". ";
      EndsWithInRight(adminName, ". " + tail, x);
      EndsWithInRight(" by admin ", rest, x);
      EndsWithInRight(name, " by admin " + rest, x);
      EndsWithInRight("Status changed to ", name + (" by admin " + rest), x);
    }
    d
  }

  /** The details determine the status: two entries with the same text record the same status. */
  lemma StatusDetailsIdentifyStatus(s: ClaimStatus, adminA: string, noteA: Option<string>,
                                    t: ClaimStatus, adminB: string, noteB: Option<string>)
    requires StatusDetails(s, adminA, noteA) == StatusDetails(t, adminB, noteB)
    ensures s == t
  {
    var d := StatusDetails(s, adminA, noteA);
    var head := "Status changed to ";
    assert d[..|head| + 1] == (head + StatusName(s) + " by admin ")[..|head| + 1];
    assert d[..|head| + 1] == (head + StatusName(t) + " by admin ")[..|head| + 1];
    assert StatusName(s)[0] == d[|head|] == StatusName(t)[0];
  }

  /** A missing note and an empty one give the same details: neither is written. */
  lemma EmptyNoteIsNoNote(status: ClaimStatus, adminName: string)
    ensures StatusDetails(status, adminName, Some("")) == StatusDetails(status, adminName, None)
  {
  }

  /** The claim `createClaim` writes: the submitted data, a fresh number, the submitter, status NEW. */
  function NewClaim(id: string, draw: RandomDraw, data: ClaimInput, user: SessionUser, now: int): (c: Claim)
    ensures c.id == id && c.data == data && c.userId == user.id && c.createdAt == now
    ensures c.status == NEW && c.internalNotes == None
    ensures IsFnolNumber(c.claimNumber)
  {
    Claim(id, ClaimNumber(draw), data, user.id, NEW, None, now)
  }

  /** Claim `c` after an admin sets `status`: notes are replaced only by a given note. */
  function WithStatus(c: Claim, status: ClaimStatus, note: Option<string>): (u: Claim)
    ensures u.status == status
    ensures u.internalNotes == if NoteGiven(note) then note else c.internalNotes
    ensures u.id == c.id && u.claimNumber == c.claimNumber && u.data == c.data
    ensures u.userId == c.userId && u.createdAt == c.createdAt
  {
    c.(status := status, internalNotes := if NoteGiven(note) then note else c.internalNotes)
  }

  class ClaimStore {
    var claims: map<string, Claim>
    var log: seq<LogEntry>

    /** Every claim is stored under its own id, and every log entry refers to a stored claim. */
    ghost predicate Valid()
      reads this
    {
      && (forall id :: id in claims ==> claims[id].id == id)
      && (forall k :: 0 <= k < |log| ==> log[k].claimId in claims)
    }

    constructor ()
      ensures Valid() && claims == map[] && log == []
    {
      claims := map[];
      log := [];
    }

    /**
      `createClaim`. Without a session user nothing is written. Otherwise the
      claim is inserted, and then its `CLAIM_CREATED` entry is appended.
      Success depends on the session and the two writes only: the data is not
      validated on this path.
     */
    method CreateClaim(session: Option<SessionUser>, data: ClaimInput, draw: RandomDraw,
                       newId: string, now: int, claimWriteFails: bool, logWriteFails: bool)
      returns (r: CreateResult)
      requires Valid()
      modifies this
      ensures Valid()
      ensures r.Created? <==> session.Some? && !claimWriteFails && newId !in old(claims) && !logWriteFails
      ensures r.Created? ==> r.claimId == newId
      ensures r.CreateFailed? ==> r.error == if session.None? then Unauthorized else FailedToCreate
      ensures session.None? || claimWriteFails || newId in old(claims) ==>
                claims == old(claims) && log == old(log)
      ensures session.Some? && !claimWriteFails && newId !in old(claims) ==>
                claims == old(claims)[newId := NewClaim(newId, draw, data, session.value, now)]
      ensures session.Some? && !claimWriteFails && newId !in old(claims) ==>
                log == if logWriteFails then old(log)
                       else old(log) + [LogEntry(newId, ClaimCreated, CreatedDetails(session.value))]
    {
      if session.None? {
        return CreateFailed(Unauthorized);
      }
      var user := session.value;
      if claimWriteFails || newId in claims {
        return CreateFailed(FailedToCreate);
      }
      claims := claims[newId := NewClaim(newId, draw, data, user, now)];
      if logWriteFails {
        return CreateFailed(FailedToCreate);
      }
      log := log + [LogEntry(newId, ClaimCreated, CreatedDetails(user))];
      r := Created(newId);
    }

    /**
      `updateClaimStatus`. Only an admin may call it; there is no transition
      rule, so any status may follow any other. The claim is updated first
      and the `STATUS_UPDATED` entry appended second; an unknown id fails at
      the first write and so appends nothing.
     */
    method UpdateClaimStatus(session: Option<SessionUser>, claimId: string, status: ClaimStatus,
                             internalNote: Option<string>, claimWriteFails: bool, logWriteFails: bool)
      returns (r: UpdateResult)
      requires Valid()
      modifies this
      ensures Valid()
      ensures r.Updated? <==>
                session.Some? && IsAdmin(session.value) && claimId in old(claims) && !claimWriteFails && !logWriteFails
      ensures r.UpdateFailed? ==>
                r.error == if session.None? || !IsAdmin(session.value) then AdminRequired else FailedToUpdate
      ensures session.None? || !IsAdmin(session.value) || claimId !in old(claims) || claimWriteFails ==>
                claims == old(claims) && log == old(log)
      ensures session.Some? && IsAdmin(session.value) && claimId in old(claims) && !claimWriteFails ==>
                && claims == old(claims)[claimId := WithStatus(old(claims)[claimId], status, internalNote)]
                && log == if logWriteFails then old(log)
                          else old(log) + [LogEntry(claimId, StatusUpdated, StatusDetails(status, session.value.name, internalNote))]
      ensures claims.Keys == old(claims).Keys
      ensures forall id :: id in old(claims) && id != claimId ==> claims[id] == old(claims)[id]
    {
      if session.None? || !IsAdmin(session.value) {
        return UpdateFailed(AdminRequired);
      }
      var admin := session.value;
      if claimId !in claims || claimWriteFails {
        return UpdateFailed(FailedToUpdate);
      }
      claims := claims[claimId := WithStatus(claims[claimId], status, internalNote)];
      if logWriteFails {
        return UpdateFailed(FailedToUpdate);
      }
      log := log + [LogEntry(claimId, StatusUpdated, StatusDetails(status, admin.name, internalNote))];
      r := Updated;
    }
  }

  /**
    Any data, however short its description, is stored for a signed-in
    client; the client cannot close the claim; an admin closing it twice
    with the same status appends one entry per call, with no deduplication,
    and the second call without a note keeps the first call's note.
   */
  method CreateThenCloseTwice(client: SessionUser, admin: SessionUser, data: ClaimInput, draw: RandomDraw)
    returns (entries: nat, status: ClaimStatus, notes: Option<string>)
    requires !IsAdmin(client) && IsAdmin(admin)
    ensures entries == 3 && status == CLOSED && notes == Some("resolved")
  {
    var store := new ClaimStore();
    var created := store.CreateClaim(Some(client), data, draw, "c1", 0, false, false);
    assert created == Created("c1") && |store.log| == 1 && "c1" in store.claims;
    var denied := store.UpdateClaimStatus(Some(client), "c1", CLOSED, None, false, false);
    assert denied == UpdateFailed(AdminRequired) && |store.log| == 1 && "c1" in store.claims;
    var first := store.UpdateClaimStatus(Some(admin), "c1", CLOSED, Some("resolved"), false, false);
    assert first == Updated && |store.log| == 2;
    assert store.claims["c1"].internalNotes == Some("resolved");
    var second := store.UpdateClaimStatus(Some(admin), "c1", CLOSED, None, false, false);
    assert second == Updated && |store.log| == 3;
    entries, status, notes := |store.log|, store.claims["c1"].status, store.claims["c1"].internalNotes;
  }
}
