/** `/api/auth/login`: e-mail and password checked against the stored hash. */
module Login {
  import opened Wrappers
  import opened Api
  import opened Mongo
  import opened Users
  import Signup

  const CredentialsRequired := "Email and password are required."
  const InvalidCredentials := "Invalid credentials."
  const LoggedIn := "Login successful"
  const LoginUnavailable := "Database connection error. Please try again later."

  /** The account as the reply shows it: the id as text, the name and the
      e-mail, and never the password hash. */
  datatype UserView = UserView(id: string, name: Option<string>, email: Option<string>)

  /** `bcrypt.compare(password, hash)`: `compare` answers for a stored hash;
      an account without one makes bcrypt throw. */
  type Compare = (string, string) -> bool

  /** POST. `fault` is a failure of the database lookup. */
  function Post(docs: seq<User>, email: Option<string>, password: Option<string>, compare: Compare,
                fault: Option<DbError>): (r: Reply<UserView>)
    ensures !Present(email) || !Present(password) ==> r == Fail(400, CredentialsRequired)
    ensures Present(email) && Present(password) && fault.Some? ==> r == Caught(fault.value, LoginUnavailable)
    ensures r.Ok? <==>
      && Present(email) && Present(password) && fault.None?
      && var u := FindByEmail(docs, email.value);
         u.Some? && u.value.password.Some? && compare(password.value, u.value.password.value)
    ensures r.Ok? ==>
      var u := FindByEmail(docs, email.value).value;
      r == Ok(UserView(u.id.hex, u.name, u.email), LoggedIn) && r.body.email == email
    ensures r.Fail? && r.status == 401 <==>
      && Present(email) && Present(password) && fault.None?
      && var u := FindByEmail(docs, email.value);
         u.None? || (u.value.password.Some? && !compare(password.value, u.value.password.value))
    ensures r.Fail? && r.status == 401 ==> r.message == InvalidCredentials
  {
    if !Present(email) || !Present(password) then Fail(400, CredentialsRequired)
    else if fault.Some? then Caught(fault.value, LoginUnavailable)
    else match FindByEmail(docs, email.value)
      case None => Fail(401, InvalidCredentials)
      case Some(user) =>
        if user.password.None? then Caught(OtherError, LoginUnavailable)
        else if !compare(password.value, user.password.value) then Fail(401, InvalidCredentials)
        else Ok(UserView(user.id.hex, user.name, user.email), LoggedIn)
  }

  /** An unknown e-mail and a wrong password get the same reply, so the
      reply does not tell whether an account exists. */
  lemma UnknownAndWrongAlike(docs: seq<User>, email: string, password: string, compare: Compare,
                             other: seq<User>)
    requires email != "" && password != ""
    requires FindByEmail(docs, email).None?
    requires var u := FindByEmail(other, email);
      u.Some? && u.value.password.Some? && !compare(password, u.value.password.value)
    ensures Post(docs, Some(email), Some(password), compare, None)
         == Post(other, Some(email), Some(password), compare, None)
  {
  }

  /** An account created by sign-up can log in with the same e-mail and
      password, provided `compare` accepts a password against its own hash
      and the e-mail was free. */
  lemma SignupThenLogin(docs: seq<User>, name: string, email: string, password: string,
                        hash: string -> string, compare: Compare, freshId: ObjectId, now: int)
    requires Signup.Check(Some(name), Some(email), Some(password)).None?
    requires FindByEmail(docs, email).None?
    requires compare(password, hash(password))
    ensures var u := Signup.NewAccount(name, email, password, hash, freshId, now);
      Post(docs + [u], Some(email), Some(password), compare, None)
        == Ok(UserView(freshId.hex, Some(name), Some(email)), LoggedIn)
  {
    var u := Signup.NewAccount(name, email, password, hash, freshId, now);
    var d := docs + [u];
    assert d[|docs|] == u;
    assert forall i :: 0 <= i < |docs| ==> d[i] == docs[i];
    assert FindByEmail(d, email) == Some(u);
  }
}
