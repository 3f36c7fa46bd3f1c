/**
  Sign-in with the fixed demo accounts and the two session callbacks
  (src/lib/auth-options.ts).

  `authorize` is a search over `DEMO_USERS`; an error it throws is a
  `Thrown` result here. The `jwt` and `session` callbacks change the token
  and the session's user object in place, so both are methods over small
  classes that stand for those objects.
 */
module AuthOptions {
  import opened JsText

  datatype DemoUser = DemoUser(id: string, email: string, password: string, name: string, role: string)

  /** `DEMO_USERS`. */
  const DemoUsers: seq<DemoUser> := [
    DemoUser("demo-admin-1", "admin@fnolpro.com", "admin123", "Admin Demo", "ADMIN"),
    DemoUser("demo-client-1", "cliente@ejemplo.com", "cliente123", "Cliente Demo", "CLIENT"),
    DemoUser("demo-client-2", "demo@demo.com", "demo", "Usuario Demo", "CLIENT")
  ]

  /** The submitted form: either field may be missing. */
  datatype Credentials = Credentials(email: Option<string>, password: Option<string>)

  /** The user object `authorize` hands to next-auth: it has no password field. */
  datatype AuthorizedUser = AuthorizedUser(id: string, email: string, name: string, role: string)

  datatype AuthorizeResult = Authorized(user: AuthorizedUser) | Thrown(message: string)

  const InvalidCredentials: string := "Credenciales inválidas"
  const UserNotFound: string := "Usuario no encontrado. Usa: demo@demo.com / demo"

  /**
    The user a server action sees through `getServerSession`: name and
    email from sign-in, and the role and id that the `session` callback
    copies from the token (the role may be missing).
   */
  datatype SessionUser = SessionUser(id: string, name: string, email: string, role: Option<string>)

  predicate IsAdmin(user: SessionUser) {
    user.role == Some("ADMIN")
  }

  predicate Matches(u: DemoUser, email: string, password: string) {
    u.email == email && u.password == password
  }

  /** `!value`: a missing field or the empty string. */
  predicate IsFalsy(value: Option<string>) {
    value == None || value == Some("")
  }

  /** `Array.prototype.find` over the accounts: the index of the first match. */
  function FirstMatch(users: seq<DemoUser>, email: string, password: string): (r: Option<nat>)
    ensures r.Some? ==> r.value < |users| && Matches(users[r.value], email, password)
    ensures r.Some? ==> forall j :: 0 <= j < r.value ==> !Matches(users[j], email, password)
    ensures r.None? ==> forall j :: 0 <= j < |users| ==> !Matches(users[j], email, password)
  {
    if users == [] then None
    else if Matches(users[0], email, password) then Some(0)
    else
      match FirstMatch(users[1..], email, password)
      case None => None
      case Some(i) => Some(i + 1)
  }

  function WithoutPassword(u: DemoUser): (a: AuthorizedUser)
    ensures a.id == u.id && a.email == u.email && a.name == u.name && a.role == u.role
  {
    AuthorizedUser(u.id, u.email, u.name, u.role)
  }

  /**
    `authorize`: a missing email or password throws one error; otherwise the
    account matching both exactly is returned, without its password, and no
    match throws the other error.
   */
  function Authorize(credentials: Option<Credentials>): (r: AuthorizeResult)
    ensures (credentials.None? || IsFalsy(credentials.value.email) || IsFalsy(credentials.value.password))
            <==> r == Thrown(InvalidCredentials)
    ensures r.Authorized? <==>
              credentials.Some? && !IsFalsy(credentials.value.email) && !IsFalsy(credentials.value.password)
              && (exists i :: 0 <= i < |DemoUsers| && Matches(DemoUsers[i], credentials.value.email.value, credentials.value.password.value))
    ensures r.Authorized? ==>
              exists i :: (0 <= i < |DemoUsers|
                           && Matches(DemoUsers[i], credentials.value.email.value, credentials.value.password.value)
                           && r.user == WithoutPassword(DemoUsers[i]))
    ensures r.Thrown? ==> r.message in {InvalidCredentials, UserNotFound}
  {
    if credentials.None? || IsFalsy(credentials.value.email) || IsFalsy(credentials.value.password) then
      Thrown(InvalidCredentials)
    else
      match FirstMatch(DemoUsers, credentials.value.email.value, credentials.value.password.value)
      case None => Thrown(UserNotFound)
      case Some(i) => Authorized(WithoutPassword(DemoUsers[i]))
  }

  /** No two demo accounts share an email, so at most one account matches. */
  lemma AtMostOneAccountMatches(email: string, password: string, i: nat, j: nat)
    requires i < |DemoUsers| && j < |DemoUsers|
    requires Matches(DemoUsers[i], email, password) && Matches(DemoUsers[j], email, password)
    ensures i == j
  {
  }

  lemma DemoAccountSignsIn()
    ensures Authorize(Some(Credentials(Some("demo@demo.com"), Some("demo"))))
         == Authorized(AuthorizedUser("demo-client-2", "demo@demo.com", "Usuario Demo", "CLIENT"))
  {
    assert !Matches(DemoUsers[0], "demo@demo.com", "demo");
    assert !Matches(DemoUsers[1], "demo@demo.com", "demo");
  }

  lemma WrongPasswordIsNotFound()
    ensures Authorize(Some(Credentials(Some("admin@fnolpro.com"), Some("demo")))) == Thrown(UserNotFound)
  {
  }

  // ---------------------------------------------------------------------
  // Callbacks

  /** The JWT: name and email come from sign-in; `jwt` adds role and id. */
  class JwtToken {
    var name: Option<string>
    var email: Option<string>
    var role: Option<string>
    var id: Option<string>

    constructor (name: Option<string>, email: Option<string>)
      ensures this.name == name && this.email == email && role == None && id == None
    {
      this.name := name;
      this.email := email;
      role := None;
      id := None;
    }
  }

  /** `jwt`: copy role and id from the signed-in user, when there is one. */
  method JwtCallback(token: JwtToken, user: Option<AuthorizedUser>) returns (t: JwtToken)
    modifies token
    ensures t == token
    ensures user.Some? ==> token.role == Some(user.value.role) && token.id == Some(user.value.id)
    ensures user.None? ==> token.role == old(token.role) && token.id == old(token.id)
    ensures token.name == old(token.name) && token.email == old(token.email)
  {
    if user.Some? {
      token.role := Some(user.value.role);
      token.id := Some(user.value.id);
    }
    t := token;
  }

  class SessionUserObject {
    var name: Option<string>
    var email: Option<string>
    var role: Option<string>
    var id: Option<string>

    constructor (name: Option<string>, email: Option<string>)
      ensures this.name == name && this.email == email && role == None && id == None
    {
      this.name := name;
      this.email := email;
      role := None;
      id := None;
    }
  }

  class Session {
    var user: SessionUserObject?

    constructor (user: SessionUserObject?)
      ensures this.user == user
    {
      this.user := user;
    }
  }

  /** `session`: copy role and id from the token onto the session's user, when there is one. */
  method SessionCallback(session: Session, token: JwtToken) returns (s: Session)
    modifies session.user
    ensures s == session && session.user == old(session.user)
    ensures session.user != null ==> session.user.role == token.role && session.user.id == token.id
    ensures session.user != null ==> session.user.name == old(session.user.name) && session.user.email == old(session.user.email)
  {
    if session.user != null {
      session.user.role := token.role;
      session.user.id := token.id;
    }
    s := session;
  }

  /** Sign-in followed by both callbacks hands the account's role and id to the session. */
  method SignInScenario() returns (role: Option<string>, id: Option<string>)
    ensures role == Some("CLIENT") && id == Some("demo-client-2")
  {
    var result := Authorize(Some(Credentials(Some("demo@demo.com"), Some("demo"))));
    DemoAccountSignsIn();
    var token := new JwtToken(Some(result.user.name), Some(result.user.email));
    token := JwtCallback(token, Some(result.user));
    var user := new SessionUserObject(token.name, token.email);
    var session := new Session(user);
    session := SessionCallback(session, token);
    role, id := user.role, user.id;
  }
}
