/** frontend/src/pages/auth/Login.tsx: the login form's schema and its submit handler. */
module LoginPage {
  import opened Wrappers
  import opened ClientApi
  import opened FormErrors

  const UsernameRequired: string := "You must enter the username"
  const PasswordRequired: string := "You must enter the password"
  const ServerErrorText: string := "Server error"
  const InvalidCredentialsText: string := "Invalid credentials"
  const HomePath: string := "/"

  /** The fields of `loginErrors`. */
  const LoginKeys: set<string> := {"username", "password"}

  /** `LoginSchema`: each field must be a non-empty string; there is no minimum length. The
      issues come in field order. */
  function LoginIssues(username: string, password: string): (r: seq<Issue>)
    ensures r == [] <==> username != "" && password != ""
    ensures forall i :: 0 <= i < |r| ==>
              r[i] in [Issue("username", UsernameRequired), Issue("password", PasswordRequired)]
  {
    (if username == "" then [Issue("username", UsernameRequired)] else [])
    + (if password == "" then [Issue("password", PasswordRequired)] else [])
  }

  /** The message a failed `loginUser` shows. */
  function ServerMessage(r: ServiceResult): (m: string)
    ensures m == InvalidCredentialsText <==> r == Error(CredentialsTag)
    ensures m == ServerErrorText <==> r == Error(ServerTag)
  {
    if r == Error(ServerTag) then ServerErrorText
    else if r == Error(CredentialsTag) then InvalidCredentialsText
    else ""
  }

  /** After a submit that fails validation, each field shows its own message, or nothing. */
  lemma LoginErrorMessages(entries: map<string, string>, username: string, password: string)
    ensures var shown := Written(entries + Blank(LoginKeys), LoginIssues(username, password));
            && "username" in shown && shown["username"] == (if username == "" then UsernameRequired else "")
            && "password" in shown && shown["password"] == (if password == "" then PasswordRequired else "")
  {
    var issues := LoginIssues(username, password);
    var start := entries + Blank(LoginKeys);
    if username == "" {
      LastIssueWins(start, issues, 0);
    } else {
      UnnamedFieldKept(start, issues, "username");
    }
    if password == "" {
      LastIssueWins(start, issues, |issues| - 1);
    } else {
      UnnamedFieldKept(start, issues, "password");
    }
  }

  /** The page never shows 'Invalid credentials': `loginUser` never reports CREDENTIALS. */
  lemma InvalidCredentialsNeverShown(server: Wire -> Answer, deviceId: string, session: Session, body: Body)
    ensures ServerMessage(StatusOutcome(Send(server, deviceId, session, LoginUrl, body, false).settled, CredentialsTag))
            != InvalidCredentialsText
  {
    LoginUserNeverReportsCredentials(server, deviceId, session, body);
  }

  /** A wrong username or password, answered 400 by the server, shows 'Server error'. */
  lemma WrongPasswordShowsServerError(server: Wire -> Answer, deviceId: string, session: Session, body: Body)
    requires server(Wire(LoginUrl, body, Bearer(session.token))) == Fail(AxiosError(Some(400)))
    ensures ServerMessage(StatusOutcome(Send(server, deviceId, session, LoginUrl, body, false).settled, CredentialsTag))
            == ServerErrorText
  {
    NotIncludesRefresh(LoginUrl);
  }

  /** The login page: the form's data, its error store, the `serverError` and `loading`
      signals, and where the router was sent. */
  class Login {
    var username: string
    var password: string
    var deviceId: string
    const errors: ErrorStore
    var serverError: string
    var loading: bool
    var navigatedTo: Option<string>
    const client: ApiClient

    constructor(client: ApiClient)
      ensures username == "" && password == "" && deviceId == ""
      ensures fresh(errors) && errors.entries == Blank(LoginKeys)
      ensures serverError == "" && !loading && navigatedTo == None && this.client == client
    {
      username := "";
      password := "";
      deviceId := "";
      errors := new ErrorStore(LoginKeys);
      serverError := "";
      loading := false;
      navigatedTo := None;
      this.client := client;
    }

    /** `handleLogin`: the device id is written into the form data and the errors are reset
        before validation; only a valid form is sent. */
    method HandleLogin()
      modifies this, errors, client
      ensures deviceId == client.deviceId && username == old(username) && password == old(password)
      ensures LoginIssues(username, password) != [] ==>
                && errors.entries == Written(old(errors.entries) + Blank(LoginKeys), LoginIssues(username, password))
                && serverError == "" && loading == old(loading) && navigatedTo == old(navigatedTo)
                && client.Snapshot() == old(client.Snapshot())
      ensures LoginIssues(username, password) == [] ==>
                var x := Send(client.server, client.deviceId, old(client.session), LoginUrl,
                              LoginBody(username, password, client.deviceId), false);
                var r := StatusOutcome(x.settled, CredentialsTag);
                && errors.entries == old(errors.entries) + Blank(LoginKeys)
                && serverError == ServerMessage(r) && !loading
                && client.Snapshot() == After(old(client.Snapshot()), x).(session := if r.Done? then SessionOf(r.data) else x.session)
                && navigatedTo == (if r.Done? then Some(HomePath) else old(navigatedTo))
    {
      deviceId := client.deviceId;
      errors.Clear(LoginKeys);
      serverError := "";
      var issues := LoginIssues(username, password);
      if issues == [] {
        loading := true;
        var result := client.LoginUser(username, password, deviceId);
        loading := false;
        if result.Done? {
          client.session := SessionOf(result.data);
          navigatedTo := Some(HomePath);
        } else {
          if result.errorType == ServerTag {
            serverError := ServerErrorText;
          }
          if result.errorType == CredentialsTag {
            serverError := InvalidCredentialsText;
          }
        }
      } else {
        errors.WriteIssues(issues);
      }
    }
  }
}
