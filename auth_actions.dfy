/**
  Registration and the company update over the user table
  (src/actions/auth.ts).

  The table is a class holding the users keyed by id. The id the store
  assigns, bcrypt (`hash`), the zod email check (`isEmail`) and the
  `Math.random()` draw that picks a company are parameters. A store call
  that throws is a boolean fault parameter; the message such an `Error`
  carries is the parameter `faultMessage`.
 */
module AuthActions {
  import opened JsText
  import opened AuthOptions
  import CertificateUtils

  datatype User = User(
    id: string,
    name: string,
    email: string,
    password: string,
    role: string,
    insuranceCompany: Option<string>)

  datatype RegisterForm = RegisterForm(name: string, email: string, password: string)

  /** The outcome of `register`: `Invalid` carries the zod issues the parse threw. */
  datatype RegisterResult = Registered(userId: string) | Invalid(issues: seq<string>) | Failed(error: string)

  datatype UpdateResult = Done | UpdateFailed(error: string)

  const NameTooShort: string := "Name must be at least 2 characters"
  const InvalidEmail: string := "Invalid email address"
  const PasswordTooShort: string := "Password must be at least 6 characters"
  const UserExists: string := "User already exists"
  const Unauthorized: string := "Unauthorized"
  const FailedToUpdateCompany: string := "Failed to update insurance company"

  /** The companies a new user may be assigned. */
  const RegistrationCompanies: seq<string> := ["MAPFRE", "ALLIANZ", "AXA", "OCCIDENT"]

  /**
    The issues `registerSchema.parse` reports, one per failing field in
    field order; the form is accepted exactly when there is none.
   */
  function RegisterIssues(form: RegisterForm, isEmail: string -> bool): (issues: seq<string>)
    ensures issues == [] <==> |form.name| >= 2 && isEmail(form.email) && |form.password| >= 6
    ensures NameTooShort in issues <==> |form.name| < 2
    ensures InvalidEmail in issues <==> !isEmail(form.email)
    ensures PasswordTooShort in issues <==> |form.password| < 6
    ensures |issues| <= 3
  {
    (if |form.name| < 2 then [NameTooShort] else [])
    + (if isEmail(form.email) then [] else [InvalidEmail])
    + (if |form.password| < 6 then [PasswordTooShort] else [])
  }

  /** `companies[Math.floor(Math.random() * companies.length)]`. */
  function DrawCompany(draw: RandomDraw): (c: string)
    ensures c in RegistrationCompanies
  {
    RegistrationCompanies[FloorScaled(draw, |RegistrationCompanies|)]
  }

  /** Every company a new user can be given is a recognised branding, never the generic fallback. */
  lemma DrawnCompanyHasBranding(draw: RandomDraw)
    ensures CertificateUtils.IsKnownName(DrawCompany(draw))
    ensures CertificateUtils.GetCompanyBranding(Some(DrawCompany(draw)))
         == CertificateUtils.Companies[DrawCompany(draw)]
  {
    var c := DrawCompany(draw);
    assert ToUpper(c) == c by {
      ToUpperFixesExactlyUpper(c);
    }
    CertificateUtils.KnownNameGivesEntry(c);
  }

  class UserStore {
    var users: map<string, User>

    /** Every user is stored under its own id, and no two users share an email. */
    ghost predicate Valid()
      reads this
    {
      && (forall id :: id in users ==> users[id].id == id)
      && (forall a, b :: a in users && b in users && users[a].email == users[b].email ==> a == b)
    }

    constructor ()
      ensures Valid() && users == map[]
    {
      users := map[];
    }

    /** `findUnique` by email. */
    predicate EmailTaken(email: string)
      reads this
    {
      exists id | id in users :: users[id].email == email
    }

    /**
      `register`: validate, refuse a known email, then insert a `CLIENT`
      holding the hash of the password and a drawn company.
     */
    method Register(form: RegisterForm, isEmail: string -> bool, hash: string -> string, draw: RandomDraw,
                    newId: string, lookupFails: bool, createFails: bool, faultMessage: string)
      returns (r: RegisterResult)
      requires Valid()
      modifies this
      ensures Valid()
      ensures r.Registered? <==>
                && RegisterIssues(form, isEmail) == [] && !lookupFails && !old(EmailTaken(form.email))
                && !createFails && newId !in old(users)
      ensures r.Invalid? <==> RegisterIssues(form, isEmail) != []
      ensures r.Invalid? ==> r.issues == RegisterIssues(form, isEmail)
      ensures RegisterIssues(form, isEmail) == [] && !lookupFails && old(EmailTaken(form.email)) ==>
                r == Failed(UserExists)
      ensures r.Failed? ==> r.error in {UserExists, faultMessage}
      ensures RegisterIssues(form, isEmail) == [] &&
              (lookupFails || (!old(EmailTaken(form.email)) && (createFails || newId in old(users)))) ==>
                r == Failed(faultMessage)
      ensures r.Registered? ==> r.userId == newId
      ensures r.Registered? ==>
                users == old(users)[newId := User(newId, form.name, form.email, hash(form.password), "CLIENT",
                                                  Some(DrawCompany(draw)))]
      ensures !r.Registered? ==> users == old(users)
    {
      var issues := RegisterIssues(form, isEmail);
      if issues != [] {
        return Invalid(issues);
      }
      if lookupFails {
        return Failed(faultMessage);
      }
      if EmailTaken(form.email) {
        return Failed(UserExists);
      }
      var hashed := hash(form.password);
      var company := DrawCompany(draw);
      if createFails || newId in users {
        return Failed(faultMessage);
      }
      users := users[newId := User(newId, form.name, form.email, hashed, "CLIENT", Some(company))];
      r := Registered(newId);
    }

    /**
      `updateUserCompany`: store the upper-cased name on the session user's
      record. Updating an id that is not stored throws, like any store fault.
     */
    method UpdateUserCompany(session: Option<SessionUser>, companyName: string, updateFails: bool)
      returns (r: UpdateResult)
      requires Valid()
      modifies this
      ensures Valid()
      ensures session.None? ==> r == UpdateFailed(Unauthorized)
      ensures r.Done? <==> session.Some? && session.value.id in old(users) && !updateFails
      ensures r.UpdateFailed? && session.Some? ==> r.error == FailedToUpdateCompany
      ensures r.Done? ==>
                users == old(users)[session.value.id :=
                                    old(users)[session.value.id].(insuranceCompany := Some(ToUpper(companyName)))]
      ensures !r.Done? ==> users == old(users)
      ensures users.Keys == old(users).Keys
      ensures forall id :: id in old(users) && (session.None? || id != session.value.id) ==> users[id] == old(users)[id]
    {
      if session.None? {
        return UpdateFailed(Unauthorized);
      }
      var id := session.value.id;
      if id !in users || updateFails {
        return UpdateFailed(FailedToUpdateCompany);
      }
      users := users[id := users[id].(insuranceCompany := Some(ToUpper(companyName)))];
      r := Done;
    }
  }

  /** The stored company is in upper case, and it brands a certificate as the name typed would. */
  lemma StoredCompanyBrandsAsTyped(companyName: string)
    requires companyName != "" && CertificateUtils.IsKnownName(companyName)
    ensures IsUpper(ToUpper(companyName))
    ensures CertificateUtils.GetCompanyBranding(Some(ToUpper(companyName)))
         == CertificateUtils.GetCompanyBranding(Some(companyName))
  {
    ToUpperIdempotent(companyName);
    CertificateUtils.LookupIgnoresCase(companyName);
  }

  /** Registering the same email twice: the second attempt is refused and adds nobody. */
  method RegisterTwice(isEmail: string -> bool, hash: string -> string, draw: RandomDraw)
    returns (first: RegisterResult, second: RegisterResult, count: nat)
    requires isEmail("ana@x.com")
    ensures first == Registered("u1") && second == Failed(UserExists) && count == 1
  {
    var store := new UserStore();
    var form := RegisterForm("Ana", "ana@x.com", "secret123");
    first := store.Register(form, isEmail, hash, draw, "u1", false, false, "Something went wrong");
    assert store.users["u1"].email == "ana@x.com";
    second := store.Register(RegisterForm("Ana Bis", "ana@x.com", "another1"), isEmail, hash, draw, "u2",
                             false, false, "Something went wrong");
    count := |store.users|;
  }
}
