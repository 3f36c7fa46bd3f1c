/**
  The client-side claims list (components/claims-list-client.tsx): the
  effect that merges the demo claims kept in the browser with the claims
  the server rendered and sorts them newest first, the status badge
  colours and the status label.

  What `localStorage` holds is taken already decoded: absent (or empty),
  not JSON, JSON that is not an array, or an array of rows. `createdAt` is
  the timestamp `new Date(...).getTime()` gives, in milliseconds.
 */
module ClaimsList {

  /** A row of the table: the fields the list reads. */
  datatype ClaimRow = ClaimRow(
    id: string,
    claimNumber: string,
    claimType: string,
    status: string,
    createdAt: int,
    incidentDate: string)

  /** The item stored under `fnol_demo_claims`, as the list and the form see it. */
  datatype StoredDemoClaims = Absent | Unparsable | NotAnArray | AnArray(rows: seq<ClaimRow>)

  /** Newest first: `createdAt` never increases along the list. */
  predicate NewestFirst(s: seq<ClaimRow>) {
    forall p, q :: 0 <= p < q < |s| ==> s[p].createdAt >= s[q].createdAt
  }

  /** The first `i` rows of `a` are newest first. */
  ghost predicate PrefixNewestFirst(a: array<ClaimRow>, i: int)
    reads a
  {
    forall p, q :: 0 <= p < q < i && q < a.Length ==> a[p].createdAt >= a[q].createdAt
  }

  /**
    `Array.prototype.sort` with the comparator `b.createdAt - a.createdAt`,
    in place: the array ends newest first and holds the same rows.
   */
  method SortNewestFirst(a: array<ClaimRow>)
    modifies a
    ensures NewestFirst(a[..])
    ensures multiset(a[..]) == multiset(old(a[..]))
  {
    var i := 0;
    while i < a.Length
      invariant 0 <= i <= a.Length
      invariant PrefixNewestFirst(a, i)
      invariant multiset(a[..]) == multiset(old(a[..]))
    {
      InsertNewest(a, i);
      i := i + 1;
    }
  }

  /** One insertion step: row `i` moves left past every older row, extending the sorted prefix. */
  method InsertNewest(a: array<ClaimRow>, i: nat)
    requires i < a.Length && PrefixNewestFirst(a, i)
    modifies a
    ensures PrefixNewestFirst(a, i + 1)
    ensures multiset(a[..]) == multiset(old(a[..]))
  {
    var j := i;
    while j > 0 && a[j - 1].createdAt < a[j].createdAt
      invariant 0 <= j <= i
      invariant forall p, q :: 0 <= p < q <= i && q != j ==> a[p].createdAt >= a[q].createdAt
      invariant multiset(a[..]) == multiset(old(a[..]))
    {
      SwapWithPrevious(a, j);
      j := j - 1;
    }
  }

  /** Exchange row `j` with the row before it. */
  method SwapWithPrevious(a: array<ClaimRow>, j: nat)
    requires 0 < j < a.Length
    modifies a
    ensures a[j - 1] == old(a[j]) && a[j] == old(a[j - 1])
    ensures forall k :: 0 <= k < a.Length && k != j - 1 && k != j ==> a[k] == old(a[k])
    ensures multiset(a[..]) == multiset(old(a[..]))
  {
    a[j - 1], a[j] := a[j], a[j - 1];
  }

  class ClaimsListClient {
    /** The `claims` state the table renders. */
    var claims: seq<ClaimRow>

    /** `useState(initialClaims)`. */
    constructor (initialClaims: seq<ClaimRow>)
      ensures claims == initialClaims
    {
      claims := initialClaims;
    }

    /**
      The effect: with an array stored, the list becomes stored ++ initial,
      sorted newest first; with nothing usable stored, the list is left as
      it was.
     */
    method LoadDemoClaims(initialClaims: seq<ClaimRow>, stored: StoredDemoClaims)
      modifies this
      ensures stored.AnArray? ==> NewestFirst(claims)
      ensures stored.AnArray? ==> multiset(claims) == multiset(stored.rows + initialClaims)
      ensures stored.AnArray? ==> |claims| == |stored.rows| + |initialClaims|
      ensures !stored.AnArray? ==> claims == old(claims)
    {
      if stored.AnArray? {
        var all := stored.rows + initialClaims;
        var a := new ClaimRow[|all|](k requires 0 <= k < |all| => all[k]);
        assert a[..] == all;
        SortNewestFirst(a);
        claims := a[..];
        assert |claims| == |multiset(claims)| == |multiset(all)| == |all|;
      }
    }
  }

  /** Mounting the list and running its effect on a stored item that is not an array shows the server's claims. */
  method ShowWithoutDemoClaims(initialClaims: seq<ClaimRow>, stored: StoredDemoClaims) returns (shown: seq<ClaimRow>)
    requires !stored.AnArray?
    ensures shown == initialClaims
  {
    var list := new ClaimsListClient(initialClaims);
    list.LoadDemoClaims(initialClaims, stored);
    shown := list.claims;
  }

  const BlueBadge: string := "bg-blue-500/10 text-blue-500 border-blue-500/20"
  const OrangeBadge: string := "bg-orange-500/10 text-orange-500 border-orange-500/20"
  const GreenBadge: string := "bg-green-500/10 text-green-500 border-green-500/20"
  const GrayBadge: string := "bg-gray-500/10 text-gray-500 border-gray-500/20"

  /** `getStatusColor`: one colour per known status, gray for anything else. */
  function GetStatusColor(status: string): (c: string)
    ensures c == BlueBadge <==> status == "NEW"
    ensures c == OrangeBadge <==> status == "IN_REVIEW"
    ensures c == GreenBadge <==> status == "CLOSED"
    ensures c == GrayBadge <==> status !in {"NEW", "IN_REVIEW", "CLOSED"}
  {
    if status == "NEW" then BlueBadge
    else if status == "IN_REVIEW" then OrangeBadge
    else if status == "CLOSED" then GreenBadge
    else GrayBadge
  }

  /** The character `status.replace("_", " ")` writes at index `i`. */
  function LabelChar(status: string, i: nat): char
    requires i < |status|
  {
    if status[i] == '_' && '_' !in status[..i] then ' ' else status[i]
  }

  /**
    `status.replace("_", " ")`: a string pattern replaces its first
    occurrence only, so every character but the first underscore is kept.
   */
  function StatusLabel(status: string): (shown: string)
    ensures |shown| == |status|
    ensures forall i :: 0 <= i < |status| ==> shown[i] == LabelChar(status, i)
  {
    if status == [] then []
    else if status[0] == '_' then
      assert forall i :: 0 < i < |status| ==> '_' in status[..i] by {
        forall i | 0 < i < |status| ensures '_' in status[..i] {
          assert status[..i][0] == '_';
        }
      }
      " " + status[1..]
    else
      var tail := status[1..];
      var rest := StatusLabel(tail);
      assert forall i :: 0 < i < |status| ==> LabelChar(status, i) == LabelChar(tail, i - 1) by {
        forall i | 0 < i < |status| ensures LabelChar(status, i) == LabelChar(tail, i - 1) {
          assert status[..i] == [status[0]] + tail[..i - 1];
        }
      }
      [status[0]] + rest
  }

  /** Without an underscore the label is the status itself. */
  lemma LabelWithoutUnderscore(status: string)
    requires '_' !in status
    ensures StatusLabel(status) == status
  {
    var shown := StatusLabel(status);
    forall i | 0 <= i < |status| ensures shown[i] == status[i] {
      assert status[i] != '_';
    }
  }

  lemma InReviewLabel()
    ensures StatusLabel("IN_REVIEW") == "IN REVIEW"
  {
    assert StatusLabel("_REVIEW") == " REVIEW";
    assert StatusLabel("N_REVIEW") == "N REVIEW";
  }

  /** Only the first underscore becomes a space. */
  lemma OnlyFirstUnderscoreReplaced()
    ensures StatusLabel("A_B_C") == "A B_C"
  {
    assert StatusLabel("_B_C") == " B_C";
  }
}
