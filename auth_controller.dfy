/** The fixed-credential login of the backend's AuthController: one pair of
    credentials is accepted, everything else is refused. A missing (null)
    username or password is None. */
module AuthEndpoint {
  import opened Common

  const AcceptedUsername: string := "admin@teste.com"
  const AcceptedPassword: string := "123"
  const FakeToken: string := "fake-jwt-token"

  datatype LoginResponse = LoginResponse(status: int, body: map<string, string>)

  const Granted: LoginResponse :=
    LoginResponse(200, map["access_token" := FakeToken, "token_type" := "Bearer"])

  const Refused: LoginResponse :=
    LoginResponse(401, map["error" := "Credenciais inválidas"])

  /** `"admin@teste.com".equals(username) && "123".equals(password)`: exact,
      case-sensitive, and false for null. */
  function Login(username: Option<string>, password: Option<string>): (r: LoginResponse)
    ensures r.status == 200 <==> username == Some(AcceptedUsername) && password == Some(AcceptedPassword)
    ensures r.status == 200 ==> r.body.Keys == {"access_token", "token_type"}
    ensures r.status == 200 ==> r.body["access_token"] == FakeToken && r.body["token_type"] == "Bearer"
    ensures r.status != 200 ==> r.status == 401 && r.body.Keys == {"error"}
  {
    if username == Some(AcceptedUsername) && password == Some(AcceptedPassword) then Granted else Refused
  }

  /** The right username with any other password is refused. */
  lemma WrongPasswordRefused(password: Option<string>)
    requires password != Some(AcceptedPassword)
    ensures Login(Some(AcceptedUsername), password) == Refused
  {
  }

  /** Case matters: a capitalised username is refused. */
  lemma UsernameIsCaseSensitive()
    ensures Login(Some("Admin@teste.com"), Some(AcceptedPassword)) == Refused
  {
    assert "Admin@teste.com"[0] != AcceptedUsername[0];
  }

  lemma NullCredentialsRefused(username: Option<string>, password: Option<string>)
    requires username.None? || password.None?
    ensures Login(username, password).status == 401
  {
  }
}
