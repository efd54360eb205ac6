/** The simulated login backend of the frontend (src/services/authService.ts):
    the seeded demo users, the credential check, the dummy token, the one-hour
    expiry, the role-based redirect and the demo-credential lookup. */
module AuthService {
  import opened Wrappers
  import opened Text
  import opened Seqs

  datatype User = User(id: string, email: string, password: string, name: string, role: string)

  /** The request: the password is optional; the role is whatever the login form sent. */
  datatype LoginRequest = LoginRequest(email: string, password: Option<string>, role: string)

  datatype UserInfo = UserInfo(id: string, email: string, name: string)

  /** `expiresAt` is kept as milliseconds since the epoch. */
  datatype LoginResponse = LoginResponse(token: string, role: string, redirect: string, user: UserInfo, expiresAt: int)

  /** What the two encoded token parts hold; the encoding itself
      (`btoa(JSON.stringify(..))`) is a parameter of the model. */
  datatype TokenPart = TokenHeader(alg: string, typ: string) | TokenPayload(id: string, email: string, role: string)

  datatype Credentials = Credentials(email: string, password: string)

  const Signature: string := "dummy_signature_hash"
  const HourMillis: int := 3600000

  function Users(): seq<User>
  {
    [ User("demo-customer-1", "demo@sun.cube", "DemoPass!23", "Demo Customer", "Customer"),
      User("demo-tech-1", "tech@sun.cube", "TechPass!23", "Demo Technician", "Technician"),
      User("demo-admin-1", "admin@sun.cube", "AdminPass!23", "Demo Admin", "Admin") ]
  }

  /** The landing page for the role the user logged in with. */
  function Redirect(role: string): (r: string)
    ensures role == "Technician" ==> r == "/technician-dashboard"
    ensures role == "Admin" ==> r == "/admin-dashboard"
    ensures role != "Technician" && role != "Admin" ==> r == "/customer-dashboard"
  {
    if role == "Admin" then "/admin-dashboard"
    else if role == "Technician" then "/technician-dashboard"
    else "/customer-dashboard"
  }

  /** `${header}.${payload}.${signature}`. */
  function Token(encode: TokenPart -> string, user: User, role: string): string
  {
    encode(TokenHeader("HS256", "JWT")) + "." + encode(TokenPayload(user.id, user.email, role)) + "." + Signature
  }

  /** `mockBackendLogin(req)` at clock reading `now`: the first seeded user with
      that exact email must exist and hold exactly the given password, else the
      call fails with 'Invalid credentials'. On success the response carries the
      stored user's id, email and name, the requested role (not the stored one),
      the redirect for that role, and an expiry one hour after `now`. */
  function MockBackendLogin(req: LoginRequest, now: int, encode: TokenPart -> string): (r: Result<LoginResponse, string>)
    ensures r.Failure? ==> r.error == "Invalid credentials"
    ensures r.Failure? <==>
      (forall i :: 0 <= i < |Users()| ==> Users()[i].email != req.email)
      || (exists i :: 0 <= i < |Users()| && Users()[i].email == req.email
            && (forall j :: 0 <= j < i ==> Users()[j].email != req.email)
            && req.password != Some(Users()[i].password))
    ensures r.Success? ==>
      exists i :: 0 <= i < |Users()| && Users()[i].email == req.email
        && (forall j :: 0 <= j < i ==> Users()[j].email != req.email)
        && r.value.user == UserInfo(Users()[i].id, Users()[i].email, Users()[i].name)
        && r.value.token == Token(encode, Users()[i], req.role)
    ensures r.Success? ==>
      r.value.role == req.role && r.value.redirect == Redirect(req.role) && r.value.expiresAt == now + HourMillis
  {
    match FindIndex(Users(), (u: User) => u.email == req.email)
    case None => Failure("Invalid credentials")
    case Some(i) =>
      var user := Users()[i];
      if req.password != Some(user.password) then Failure("Invalid credentials")
      else
        Success(LoginResponse(
          token := Token(encode, user, req.role),
          role := req.role,
          redirect := Redirect(req.role),
          user := UserInfo(user.id, user.email, user.name),
          expiresAt := now + HourMillis))
  }

  /** When the encoder never emits '.', the token splits on '.' into exactly
      the header, the payload and the literal signature. */
  lemma TokenParts(encode: TokenPart -> string, user: User, role: string)
    requires forall part :: '.' !in encode(part)
    ensures Split(Token(encode, user, role), '.') ==
      [encode(TokenHeader("HS256", "JWT")), encode(TokenPayload(user.id, user.email, role)), Signature]
  {
    var h := encode(TokenHeader("HS256", "JWT"));
    var p := encode(TokenPayload(user.id, user.email, role));
    var parts := [h, p, Signature];
    assert Join(parts, '.') == Token(encode, user, role) by {
      assert Join([Signature], '.') == Signature;
      assert parts[1..] == [p, Signature];
      assert parts[1..][1..] == [Signature];
    }
    assert '.' !in Signature;
    SplitJoin(parts, '.');
  }

  /** `getDemoCredentials(role)`: the email and password of the first seeded
      user with that role, or two empty strings. */
  function GetDemoCredentials(role: string): (r: Credentials)
    ensures (forall i :: 0 <= i < |Users()| ==> Users()[i].role != role) ==> r == Credentials("", "")
    ensures (exists i :: 0 <= i < |Users()| && Users()[i].role == role) ==>
      exists i :: 0 <= i < |Users()| && Users()[i].role == role
        && (forall j :: 0 <= j < i ==> Users()[j].role != role)
        && r == Credentials(Users()[i].email, Users()[i].password)
  {
    match Find(Users(), (u: User) => u.role == role)
    case Some(u) => Credentials(u.email, u.password)
    case None => Credentials("", "")
  }

  /** A seeded user's own email and password log in, as that user. */
  lemma SeededUserLogsIn(i: nat, role: string, now: int, encode: TokenPart -> string)
    requires i < |Users()|
    ensures var u := Users()[i];
      var r := MockBackendLogin(LoginRequest(u.email, Some(u.password), role), now, encode);
      r.Success? && r.value.user.id == u.id
  {
    var us := Users();
    assert forall j :: 0 <= j < |us| && j != i ==> us[j].email != us[i].email;
  }

  /** The empty credentials of an unknown role match no seeded user. */
  lemma EmptyCredentialsFail(role: string, now: int, encode: TokenPart -> string)
    ensures MockBackendLogin(LoginRequest("", Some(""), role), now, encode).Failure?
  {
    var us := Users();
    assert forall i :: 0 <= i < |us| ==> us[i].email != "";
  }

  /** The demo credentials of every seeded role log in, as that role and as the
      seeded user of that role; for any other role they do not. */
  lemma {:induction false} DemoCredentialsLogIn(role: string, now: int, encode: TokenPart -> string)
    ensures var c := GetDemoCredentials(role);
      var r := MockBackendLogin(LoginRequest(c.email, Some(c.password), role), now, encode);
      (r.Success? <==> role in {"Customer", "Technician", "Admin"})
      && (r.Success? ==> exists i :: 0 <= i < |Users()| && Users()[i].role == role && r.value.user.id == Users()[i].id)
  {
    var us := Users();
    var c := GetDemoCredentials(role);
    if role == "Customer" {
      assert us[0].role == role;
      assert c == Credentials(us[0].email, us[0].password);
      SeededUserLogsIn(0, role, now, encode);
    } else if role == "Technician" {
      assert us[1].role == role && us[0].role != role;
      assert c == Credentials(us[1].email, us[1].password);
      SeededUserLogsIn(1, role, now, encode);
    } else if role == "Admin" {
      assert us[2].role == role && us[0].role != role && us[1].role != role;
      assert c == Credentials(us[2].email, us[2].password);
      SeededUserLogsIn(2, role, now, encode);
    } else {
      assert forall i :: 0 <= i < |us| ==> us[i].role != role;
      EmptyCredentialsFail(role, now, encode);
    }
  }
}
