/** The login screen's logic: validation of the two fields, and what a login answer does to the session.
    The login mutation is an endpoint of the API slice, so it runs through the reauth wrapper. */
module Login {
  import opened Wrappers
  import opened AuthSlice
  import opened ApiSlice

  const UserNameRequired: string := "Email is required"
  const PasswordRequired: string := "Password is required"
  const PasswordTooShort: string := "Password must be at least 6 characters"
  const MinPasswordLength: nat := 6

  /** JavaScript's `length`: UTF-16 code units, so a character outside the Basic
      Multilingual Plane counts twice. */
  function Utf16Length(s: string): (n: nat)
    ensures |s| <= n <= 2 * |s|
    ensures n == 0 <==> s == ""
    decreases |s|
  {
    if s == [] then 0
    else (if s[0] as int > 0xFFFF then 2 else 1) + Utf16Length(s[1..])
  }

  /** The messages shown under the two fields; "" means no message. */
  datatype FieldErrors = FieldErrors(userName: string, password: string)

  datatype Validation = Validation(errors: FieldErrors, valid: bool)

  /** `validateInputs`: one message per field, and whether the form may be submitted. */
  function ValidateInputs(userName: string, password: string): (v: Validation)
    ensures v.errors.userName == (if userName == "" then UserNameRequired else "")
    // the password gets at most one message, and which one depends on its length alone
    ensures v.errors.password in {"", PasswordRequired, PasswordTooShort}
    ensures v.errors.password == PasswordRequired <==> password == ""
    ensures v.errors.password == PasswordTooShort <==> 0 < Utf16Length(password) < MinPasswordLength
    ensures v.valid <==> v.errors == FieldErrors("", "")
  {
    var userNameError := if userName == "" then UserNameRequired else "";
    var passwordError :=
      if password == "" then PasswordRequired
      else if Utf16Length(password) < MinPasswordLength then PasswordTooShort
      else "";
    Validation(FieldErrors(userNameError, passwordError), userNameError == "" && passwordError == "")
  }

  /** The form is accepted exactly when a name is given and the password has at least six code units. */
  lemma ValidIff(userName: string, password: string)
    ensures ValidateInputs(userName, password).valid <==>
              userName != "" && Utf16Length(password) >= MinPasswordLength
  {
  }

  /** The body sent to `/auth/login`. */
  datatype Credentials = Credentials(username: string, password: string)

  /** The data of a login answer: `null` (reading `.token` throws, and the handler's
      `catch` swallows it), or an object whose `token` may be missing. */
  datatype LoginData = NullBody | LoginBody(token: Option<string>)

  /** What `handleLogin` leaves behind: the field messages, the session, the calls made
      (by the reauth wrapper on the login's behalf) and every action dispatched. */
  datatype LoginOutcome = LoginOutcome(errors: FieldErrors, session: Session,
                                       calls: seq<Call<Credentials>>, actions: seq<Action>)

  /** The login answer carries data the handler can read a token from. */
  predicate LoginSucceeded(r: Fetched<LoginData>) {
    r.Success? && r.data.LoginBody?
  }

  /** `handleLogin`: validate; if valid, call the login endpoint; on success store the
      returned token, then the entered name; on an error (or a thrown exception) dispatch nothing. */
  function HandleLogin(s: Session, userName: string, password: string,
                       server: Server<Credentials, LoginData>): (o: LoginOutcome)
    ensures o.errors == ValidateInputs(userName, password).errors
    ensures o.session == Run(s, o.actions)
    // the login endpoint is called only when validation succeeds
    ensures o.calls != [] <==> ValidateInputs(userName, password).valid
    ensures o.calls == [] ==> o.session == s && o.actions == []
    ensures o.calls != [] ==> o.calls[0] == Query(Credentials(userName, password), MainHeaders(s))
    ensures o.calls != [] ==>
              var d := BaseQueryWithReauth(s, Credentials(userName, password), server);
              && o.calls == d.calls
              && (LoginSucceeded(d.result) ==>
                    && o.actions == d.actions + [SetToken(d.result.data.token), SetUser(Some(userName))]
                    && o.session == d.session.(token := d.result.data.token, userName := Some(userName)))
              && (!LoginSucceeded(d.result) ==> o.actions == d.actions && o.session == d.session)
  {
    var v := ValidateInputs(userName, password);
    if !v.valid then
      LoginOutcome(v.errors, s, [], [])
    else
      var d := BaseQueryWithReauth(s, Credentials(userName, password), server);
      if LoginSucceeded(d.result) then
        var acts := [SetToken(d.result.data.token), SetUser(Some(userName))];
        RunAppend(s, d.actions, acts);
        RunCharacterised(d.session, acts);
        LoginOutcome(v.errors, Run(d.session, acts), d.calls, d.actions + acts)
      else
        LoginOutcome(v.errors, d.session, d.calls, d.actions)
  }

  /** After a successful login with a truthy token, the next request presents that token
      and the session carries the entered name. */
  lemma LoginAuthorisesNextRequest(s: Session, userName: string, password: string,
                                   server: Server<Credentials, LoginData>)
    requires ValidateInputs(userName, password).valid
    requires var d := BaseQueryWithReauth(s, Credentials(userName, password), server);
      LoginSucceeded(d.result) && Truthy(d.result.data.token)
    ensures var o := HandleLogin(s, userName, password, server);
      var d := BaseQueryWithReauth(s, Credentials(userName, password), server);
      && BearerCredential(MainHeaders(o.session)) == d.result.data.token
      && o.session.userName == Some(userName)
  {
  }

  /** Logging in keeps the store reachable: it never writes the refresh credential. */
  lemma LoginKeepsReachable(s: Session, userName: string, password: string,
                            server: Server<Credentials, LoginData>)
    requires Reachable(s)
    ensures Reachable(HandleLogin(s, userName, password, server).session)
  {
    var o := HandleLogin(s, userName, password, server);
    RunKeepsReachable(s, o.actions);
  }
}
