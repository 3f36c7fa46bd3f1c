/**
  The claim form (components/forms/fnol-form.tsx): its validation schema,
  the three-step wizard counter, and what a submission saves in the
  browser for the demo list.

  The zod email check is the parameter `isEmail`; `Date.now()` and the
  creation time are parameters; `localStorage` is an object holding the
  decoded item (`ClaimsList.StoredDemoClaims`).
 */
module FnolForm {
  import opened JsText
  import opened ClaimNumbers
  import opened ClaimsList
  import DemoClaims
  import ClaimLifecycle

  /** The form's values: every field is text, the type included. */
  datatype FormValues = FormValues(
    claimType: string,
    policyholderName: string,
    policyholderId: string,
    policyholderEmail: string,
    policyholderPhone: string,
    policyNumber: string,
    coverageType: string,
    incidentDate: string,
    location: string,
    description: string,
    damageCategory: string)

  const ClaimTypes: set<string> := {"AUTO", "HOME", "BUSINESS"}

  /** `claimSchema` field by field: each field's name and whether its rule holds. */
  function FieldChecks(v: FormValues, isEmail: string -> bool): seq<(string, bool)> {
    [ ("type", v.claimType in ClaimTypes),
      ("policyholderName", |v.policyholderName| >= 2),
      ("policyholderId", |v.policyholderId| >= 2),
      ("policyholderEmail", isEmail(v.policyholderEmail)),
      ("policyholderPhone", |v.policyholderPhone| >= 5),
      ("policyNumber", |v.policyNumber| >= 3),
      ("coverageType", |v.coverageType| >= 2),
      ("incidentDate", |v.incidentDate| >= 1),
      ("location", |v.location| >= 3),
      ("description", |v.description| >= 10),
      ("damageCategory", |v.damageCategory| >= 2) ]
  }

  /** No two checks carry the same field name. */
  predicate DistinctNames(checks: seq<(string, bool)>) {
    forall p, q :: 0 <= p < q < |checks| ==> checks[p].0 != checks[q].0
  }

  predicate NoRepeats(names: seq<string>) {
    forall p, q :: 0 <= p < q < |names| ==> names[p] != names[q]
  }

  /** The names of the failing checks, in order. */
  function FailingFields(checks: seq<(string, bool)>): (names: seq<string>)
    ensures names == [] <==> forall k :: 0 <= k < |checks| ==> checks[k].1
    ensures |names| <= |checks|
    ensures forall k :: 0 <= k < |checks| && !checks[k].1 ==> checks[k].0 in names
    ensures forall n :: n in names ==> exists k :: 0 <= k < |checks| && !checks[k].1 && checks[k].0 == n
    ensures DistinctNames(checks) ==> NoRepeats(names)
  {
    if checks == [] then []
    else
      var rest := FailingFields(checks[1..]);
      assert forall k :: 0 < k < |checks| ==> checks[k] == checks[1..][k - 1];
      if checks[0].1 then rest
      else
        assert DistinctNames(checks) ==> checks[0].0 !in rest by {
          if DistinctNames(checks) {
            forall n | n in rest ensures n != checks[0].0 {
              var k :| 0 <= k < |checks[1..]| && !checks[1..][k].1 && checks[1..][k].0 == n;
              assert checks[k + 1].0 == n;
            }
          }
        }
        [checks[0].0] + rest
  }

  /** `claimSchema` accepts the values. */
  predicate SchemaAccepts(v: FormValues, isEmail: string -> bool) {
    && v.claimType in ClaimTypes
    && |v.policyholderName| >= 2
    && |v.policyholderId| >= 2
    && isEmail(v.policyholderEmail)
    && |v.policyholderPhone| >= 5
    && |v.policyNumber| >= 3
    && |v.coverageType| >= 2
    && |v.incidentDate| >= 1
    && |v.location| >= 3
    && |v.description| >= 10
    && |v.damageCategory| >= 2
  }

  /** The index of a rule the values break, when the schema rejects them. */
  function FirstFailingRule(v: FormValues, isEmail: string -> bool): (k: nat)
    requires !SchemaAccepts(v, isEmail)
    ensures k < |FieldChecks(v, isEmail)| && !FieldChecks(v, isEmail)[k].1
  {
    if v.claimType !in ClaimTypes then 0
    else if |v.policyholderName| < 2 then 1
    else if |v.policyholderId| < 2 then 2
    else if !isEmail(v.policyholderEmail) then 3
    else if |v.policyholderPhone| < 5 then 4
    else if |v.policyNumber| < 3 then 5
    else if |v.coverageType| < 2 then 6
    else if |v.incidentDate| < 1 then 7
    else if |v.location| < 3 then 8
    else if |v.description| < 10 then 9
    else 10
  }

  /** The schema's field names are distinct, so a name locates its rule. */
  lemma FieldIndex(v: FormValues, isEmail: string -> bool, k: nat)
    requires k < |FieldChecks(v, isEmail)|
    ensures FieldChecks(v, isEmail)[k].0 == "type" ==> k == 0
    ensures FieldChecks(v, isEmail)[k].0 == "policyholderEmail" ==> k == 3
    ensures FieldChecks(v, isEmail)[k].0 == "description" ==> k == 9
  {
    assert k == 0 || k == 3 || k == 9 || k in {1, 2, 4, 5, 6, 7, 8, 10};
  }

  /** The schema declares each field once. */
  lemma FieldNamesDistinct(v: FormValues, isEmail: string -> bool)
    ensures DistinctNames(FieldChecks(v, isEmail))
  {
    var checks := FieldChecks(v, isEmail);
    forall p, q | 0 <= p < q < |checks| ensures checks[p].0 != checks[q].0 {
      var a, b := checks[p].0, checks[q].0;
      assert |a| != |b| || a[0] != b[0] || a[|a| - 1] != b[|b| - 1];
    }
  }

  /** The fields `claimSchema` rejects, in declaration order: at most one entry per field. */
  function FormIssues(v: FormValues, isEmail: string -> bool): (issues: seq<string>)
    ensures |issues| <= |FieldChecks(v, isEmail)|
    ensures forall p, q :: 0 <= p < q < |issues| ==> issues[p] != issues[q]
  {
    FieldNamesDistinct(v, isEmail);
    FailingFields(FieldChecks(v, isEmail))
  }

  /** The form goes through exactly when the type is one of the three, the email is valid and every other field has its minimum length. */
  lemma FormAcceptedExactlyWhenValid(v: FormValues, isEmail: string -> bool)
    ensures FormIssues(v, isEmail) == [] <==> SchemaAccepts(v, isEmail)
  {
    var checks := FieldChecks(v, isEmail);
    if !SchemaAccepts(v, isEmail) {
      var k := FirstFailingRule(v, isEmail);
      assert !checks[k].1;
    }
  }

  /** A field is reported exactly when its rule fails (shown for the type, the email and the description). */
  lemma FieldReportedExactlyWhenInvalid(v: FormValues, isEmail: string -> bool)
    ensures "type" in FormIssues(v, isEmail) <==> v.claimType !in ClaimTypes
    ensures "policyholderEmail" in FormIssues(v, isEmail) <==> !isEmail(v.policyholderEmail)
    ensures "description" in FormIssues(v, isEmail) <==> |v.description| < 10
  {
    var checks := FieldChecks(v, isEmail);
    var issues := FormIssues(v, isEmail);
    assert checks[0] == ("type", v.claimType in ClaimTypes);
    assert checks[3] == ("policyholderEmail", isEmail(v.policyholderEmail));
    assert checks[9] == ("description", |v.description| >= 10);
    forall name | name in issues && name in {"type", "policyholderEmail", "description"}
      ensures name == "type" ==> v.claimType !in ClaimTypes
      ensures name == "policyholderEmail" ==> !isEmail(v.policyholderEmail)
      ensures name == "description" ==> |v.description| < 10
    {
      var k :| 0 <= k < |checks| && !checks[k].1 && checks[k].0 == name;
      FieldIndex(v, isEmail, k);
    }
  }

  // ---------------------------------------------------------------------
  // The wizard's step

  class StepCounter {
    var step: int

    ghost predicate Valid()
      reads this
    {
      1 <= step <= 3
    }

    /** `useState(1)`. */
    constructor ()
      ensures Valid() && step == 1
    {
      step := 1;
    }

    /** `nextStep`: `Math.min(s + 1, 3)`. */
    method NextStep()
      requires Valid()
      modifies this
      ensures Valid()
      ensures old(step) < 3 ==> step == old(step) + 1
      ensures old(step) == 3 ==> step == 3
    {
      step := if step + 1 < 3 then step + 1 else 3;
    }

    /** `prevStep`: `Math.max(s - 1, 1)`. */
    method PrevStep()
      requires Valid()
      modifies this
      ensures Valid()
      ensures old(step) > 1 ==> step == old(step) - 1
      ensures old(step) == 1 ==> step == 1
    {
      step := if step - 1 > 1 then step - 1 else 1;
    }

    /** The footer shows the submit button instead of "Next Step" when `step < 3` fails. */
    predicate SubmitOffered()
      reads this
    {
      !(step < 3)
    }

    /** On a counter in range, the submit button is shown exactly on the last step. */
    lemma SubmitOnlyOnLastStep()
      requires Valid()
      ensures SubmitOffered() <==> step == 3
    {
    }
  }

  /**
    Two presses of "Next Step" from the start reach the step that offers
    submission. The third `nextStep` call is not a click the page allows,
    since step 3 shows the submit button in place of "Next Step"; it only
    exercises the `Math.min` guard, which leaves the step at 3.
   */
  method WalkToSubmit() returns (step: int, offered: bool)
    ensures step == 3 && offered
  {
    var counter := new StepCounter();
    counter.NextStep();
    counter.NextStep();
    assert counter.step == 3 && counter.SubmitOffered();
    counter.NextStep();
    step, offered := counter.step, counter.SubmitOffered();
  }

  // ---------------------------------------------------------------------
  // `message.match(/FNOL-\d+/)?.[0]`

  /** The number of consecutive digits in `s` from index `j` onwards. */
  function DigitRun(s: string, j: nat): (n: nat)
    ensures j + n <= |s| || (j > |s| && n == 0)
    ensures forall k :: j <= k < j + n ==> IsDigit(s[k])
    ensures j + n < |s| ==> !IsDigit(s[j + n])
    decreases |s| - j
  {
    if j < |s| && IsDigit(s[j]) then 1 + DigitRun(s, j + 1) else 0
  }

  /** The pattern `FNOL-\d` can start matching at index `i`. */
  predicate MatchesAt(s: string, i: nat) {
    i + 6 <= |s| && s[i..i + 5] == "FNOL-" && IsDigit(s[i + 5])
  }

  /** A match is "FNOL-" followed by one or more digits. */
  predicate IsFnolMatch(m: string) {
    |m| >= 6 && m[..5] == "FNOL-" && forall k :: 5 <= k < |m| ==> IsDigit(m[k])
  }

  /**
    The leftmost match at or after index `i`, with as many digits as
    follow (the quantifier is greedy).
   */
  function FirstMatchFrom(s: string, i: nat): (m: Option<string>)
    ensures m.None? ==> forall k :: i <= k < |s| ==> !MatchesAt(s, k)
    ensures m.Some? ==> IsFnolMatch(m.value)
    ensures m.Some? ==> exists k :: LeftmostMatch(s, i, k) && m.value == MatchText(s, k)
    decreases |s| - i
  {
    if i + 6 > |s| then None
    else if MatchesAt(s, i) then
      var m := MatchText(s, i);
      assert m[..5] == s[i..i + 5];
      assert LeftmostMatch(s, i, i);
      Some(m)
    else
      var r := FirstMatchFrom(s, i + 1);
      if r.Some? then
        var k :| LeftmostMatch(s, i + 1, k) && r.value == MatchText(s, k);
        assert LeftmostMatch(s, i, k);
        r
      else r
  }

  /** A match starts at `k`, and none starts between `i` and `k`. */
  predicate LeftmostMatch(s: string, i: nat, k: nat) {
    i <= k < |s| && MatchesAt(s, k) && forall j :: i <= j < k ==> !MatchesAt(s, j)
  }

  /** The text matched from index `k`: "FNOL-" and every digit that follows. */
  function MatchText(s: string, k: nat): string
    requires MatchesAt(s, k)
  {
    s[k..k + 5 + DigitRun(s, k + 5)]
  }

  /** `claimNumber`: the first match in the message, or the placeholder "FNOL-NEW". */
  function ClaimNumberOf(message: Option<string>): (n: string)
    ensures message.None? ==> n == "FNOL-NEW"
    ensures message.Some? && (forall k :: 0 <= k < |message.value| ==> !MatchesAt(message.value, k)) ==>
              n == "FNOL-NEW"
    ensures message.Some? && (exists k :: 0 <= k < |message.value| && MatchesAt(message.value, k)) ==>
              exists k :: LeftmostMatch(message.value, 0, k) && n == MatchText(message.value, k)
    ensures n != "FNOL-NEW" ==> IsFnolMatch(n)
  {
    match message
    case None => "FNOL-NEW"
    case Some(text) =>
      match FirstMatchFrom(text, 0)
      case None => "FNOL-NEW"
      case Some(m) => m
  }

  /** No match can start inside a prefix that has no 'F'. */
  lemma {:induction false} SkipPrefixWithoutF(s: string, prefix: string, i: nat)
    requires prefix <= s && i <= |prefix|
    requires forall k :: 0 <= k < |prefix| ==> prefix[k] != 'F'
    ensures FirstMatchFrom(s, i) == FirstMatchFrom(s, |prefix|)
    decreases |prefix| - i
  {
    if i < |prefix| {
      assert s[i] == prefix[i];
      assert !MatchesAt(s, i) by {
        if i + 6 <= |s| {
          assert s[i..i + 5][0] == s[i];
        }
      }
      SkipPrefixWithoutF(s, prefix, i + 1);
    }
  }

  /** Six digits followed by a space form a run of exactly six. */
  lemma SixDigitRun(s: string, j: nat)
    requires j + 7 <= |s| && s[j + 6] == ' '
    requires forall k :: j <= k < j + 6 ==> IsDigit(s[k])
    ensures DigitRun(s, j) == 6
  {
    assert DigitRun(s, j + 6) == 0;
    assert DigitRun(s, j + 5) == 1;
    assert DigitRun(s, j + 4) == 2;
    assert DigitRun(s, j + 3) == 3;
    assert DigitRun(s, j + 2) == 4;
  }

  /** With the demo action the saved record carries the claim number the message announced. */
  lemma DemoMessageGivesClaimNumber(draw: RandomDraw)
    ensures ClaimNumberOf(Some(DemoClaims.MessageHead + ClaimNumber(draw) + DemoClaims.MessageTail)) == ClaimNumber(draw)
  {
    var number := ClaimNumber(draw);
    var head := DemoClaims.MessageHead;
    var s := head + number + DemoClaims.MessageTail;
    assert IsFnolNumber(number);
    assert s == head + (number + DemoClaims.MessageTail);
    assert s[|head|..|head| + 11] == number;
    assert s[|head|..|head| + 5] == number[..5];
    SkipPrefixWithoutF(s, head, 0);
    assert MatchesAt(s, |head|);
    SixDigitRun(s, |head| + 5);
  }

  // ---------------------------------------------------------------------
  // Saving the submitted claim for the demo list

  /** `result.error` is truthy. */
  predicate HasError(r: DemoClaims.ClaimResponse) {
    r.error.Some? && r.error.value != ""
  }

  /** The record `onSubmit` builds from a successful answer. */
  function NewDemoClaim(result: DemoClaims.ClaimResponse, values: FormValues, now: nat, createdAt: int): (c: ClaimRow)
    ensures c.status == "NEW" && c.claimType == values.claimType && c.incidentDate == values.incidentDate
    ensures c.createdAt == createdAt
    ensures result.claimId.Some? && result.claimId.value != "" ==> c.id == result.claimId.value
    ensures result.claimId.None? || result.claimId.value == "" ==> c.id == "demo-" + NatToDecimal(now)
    ensures c.claimNumber == ClaimNumberOf(result.message)
    ensures c.claimNumber == "FNOL-NEW" || IsFnolMatch(c.claimNumber)
  {
    var id := if result.claimId.Some? && result.claimId.value != "" then result.claimId.value
              else "demo-" + NatToDecimal(now);
    ClaimRow(id, ClaimNumberOf(result.message), values.claimType, "NEW", createdAt, values.incidentDate)
  }

  /** A database-backed answer carries no message, so its record gets the placeholder number. */
  lemma ServerAnswerGivesPlaceholder(claimId: string, values: FormValues, now: nat, createdAt: int)
    ensures NewDemoClaim(DemoClaims.ClaimResponse(Some(true), Some(claimId), None, None), values, now, createdAt).claimNumber
         == "FNOL-NEW"
  {
  }

  const SubmittedToast: string := "Claim submitted successfully!"
  const SubmitFailedToast: string := "Failed to submit claim"

  /** The browser's `localStorage` item that holds the demo claims. */
  class DemoClaimStorage {
    var stored: StoredDemoClaims

    constructor (stored: StoredDemoClaims)
      ensures this.stored == stored
    {
      this.stored := stored;
    }

    /**
      `onSubmit` after the action answered (`result`), or threw (`None`). An
      error answer or a throw saves nothing. Otherwise the new record is
      pushed at the end of the stored array (an empty one when nothing is
      stored); an item that does not parse, or parses to something other
      than an array, makes the push throw, which is caught, and stays as it
      was.
     */
    method SaveSubmission(result: Option<DemoClaims.ClaimResponse>, values: FormValues, now: nat, createdAt: int)
      returns (toast: string)
      modifies this
      ensures result.None? ==> toast == SubmitFailedToast && stored == old(stored)
      ensures result.Some? && HasError(result.value) ==> toast == result.value.error.value && stored == old(stored)
      ensures result.Some? && !HasError(result.value) ==> toast == SubmittedToast
      ensures result.Some? && !HasError(result.value) && old(stored).AnArray? ==>
                stored == AnArray(old(stored).rows + [NewDemoClaim(result.value, values, now, createdAt)])
      ensures result.Some? && !HasError(result.value) && old(stored) == Absent ==>
                stored == AnArray([NewDemoClaim(result.value, values, now, createdAt)])
      ensures old(stored) in {Unparsable, NotAnArray} ==> stored == old(stored)
    {
      if result.None? {
        return SubmitFailedToast;
      }
      var answer := result.value;
      if HasError(answer) {
        return answer.error.value;
      }
      var record := NewDemoClaim(answer, values, now, createdAt);
      toast := SubmittedToast;
      match stored
      case Absent => stored := AnArray([record]);
      case AnArray(rows) => stored := AnArray(rows + [record]);
      case Unparsable =>
      case NotAnArray =>
    }
  }

  /** Filling the form and submitting to the demo action: the list gains one record, with the announced number. */
  method SubmitToDemo(values: FormValues, draw: RandomDraw, now: nat, createdAt: int)
    returns (saved: seq<ClaimRow>)
    requires values.claimType in ClaimTypes
    ensures |saved| == 1
    ensures saved[0].claimNumber == ClaimNumber(draw) && saved[0].status == "NEW"
    ensures saved[0].id == "demo-" + NatToDecimal(now)
  {
    var storage := new DemoClaimStorage(Absent);
    var answer := DemoClaims.CreateClaim(None, ActionInput(values, 0), draw, now);
    DemoMessageGivesClaimNumber(draw);
    var toast := storage.SaveSubmission(Some(answer), values, now, createdAt);
    saved := storage.stored.rows;
  }

  /**
    `{...values, incidentDate: new Date(values.incidentDate)}`: the values
    the form passes to the action, with the incident date as the time
    `incidentTime` the date text parses to. A type outside the three is
    rejected by the schema before this point.
   */
  function ActionInput(v: FormValues, incidentTime: int): (d: ClaimLifecycle.ClaimInput)
    requires v.claimType in ClaimTypes
    ensures ClaimLifecycle.TypeName(d.claimType) == v.claimType
    ensures d.incidentDate == incidentTime
    ensures d.policyholderName == v.policyholderName && d.policyholderId == v.policyholderId
    ensures d.policyholderEmail == v.policyholderEmail && d.policyholderPhone == v.policyholderPhone
    ensures d.policyNumber == v.policyNumber && d.coverageType == v.coverageType
    ensures d.location == v.location && d.description == v.description
    ensures d.damageCategory == v.damageCategory
  {
    ClaimLifecycle.ClaimInput(
      if v.claimType == "HOME" then ClaimLifecycle.HOME
      else if v.claimType == "BUSINESS" then ClaimLifecycle.BUSINESS
      else ClaimLifecycle.AUTO,
      v.policyholderName, v.policyholderId, v.policyholderEmail, v.policyholderPhone, v.policyNumber,
      v.coverageType, incidentTime, v.location, v.description, v.damageCategory)
  }
}
