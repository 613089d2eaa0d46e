/** frontend/src/pages/auth/Register.tsx: the sign-up form's schema and its submit handler. */
module RegisterPage {
  import opened Wrappers
  import opened ClientApi
  import opened FormErrors
  import opened JsText

  const UsernameRequired: string := "You must enter the username"
  const PasswordRequired: string := "You must enter the password"
  const TooShort: string := "You must enter 4 characters at least"
  const ServerErrorText: string := "Server error"
  const UsernameTakenText: string := "This username already exists"
  const MinLength: int := 4

  /** The tag the page compares against; the service emits `USERNAME_EXIST`. */
  const UsernameExistsTag: string := "USERNAME_EXISTS"

  /** The fields of `registerErrors`. */
  const RegisterKeys: set<string> := {"username", "password"}

  /** One field of `RegisterSchema`: `nonEmpty`, then `minLength(4)` in UTF-16 code units. A
      pipe runs every validation action, so an empty value yields both issues. */
  function FieldIssues(key: string, value: string, required: string): (r: seq<Issue>)
    ensures r == [] <==> Utf16Length(value) >= MinLength
    ensures value == "" ==> r == [Issue(key, required), Issue(key, TooShort)]
    ensures value != "" && Utf16Length(value) < MinLength ==> r == [Issue(key, TooShort)]
  {
    (if value == "" then [Issue(key, required)] else [])
    + (if Utf16Length(value) < MinLength then [Issue(key, TooShort)] else [])
  }

  /** `RegisterSchema`: both fields, in field order. */
  function RegisterIssues(username: string, password: string): (r: seq<Issue>)
    ensures r == [] <==> Utf16Length(username) >= MinLength && Utf16Length(password) >= MinLength
  {
    FieldIssues("username", username, UsernameRequired) + FieldIssues("password", password, PasswordRequired)
  }

  /** A field that is too short always ends up showing the length message, even when it is
      empty: the later `minLength` issue overwrites the `nonEmpty` one. */
  lemma RegisterErrorMessages(entries: map<string, string>, username: string, password: string)
    ensures var shown := Written(entries + Blank(RegisterKeys), RegisterIssues(username, password));
            && "username" in shown && shown["username"] == (if Utf16Length(username) < MinLength then TooShort else "")
            && "password" in shown && shown["password"] == (if Utf16Length(password) < MinLength then TooShort else "")
  {
    var user := FieldIssues("username", username, UsernameRequired);
    var pass := FieldIssues("password", password, PasswordRequired);
    var issues := user + pass;
    var start := entries + Blank(RegisterKeys);
    if Utf16Length(username) < MinLength {
      assert issues[|user| - 1] == Issue("username", TooShort);
      LastIssueWins(start, issues, |user| - 1);
    } else {
      UnnamedFieldKept(start, issues, "username");
    }
    if Utf16Length(password) < MinLength {
      LastIssueWins(start, issues, |issues| - 1);
    } else {
      UnnamedFieldKept(start, issues, "password");
    }
  }

  /** The page's check for a taken username never fires: no outcome of `registerUser` carries
      the tag it compares against. */
  lemma TakenUsernameTagNeverMatches(settled: Settled)
    ensures StatusOutcome(settled, UsernameExistTag) != Error(UsernameExistsTag)
  {
    assert UsernameExistTag != UsernameExistsTag by {
      assert |UsernameExistTag| != |UsernameExistsTag|;
    }
  }

  /** The error store after the page's check of a failed `registerUser`'s tag. */
  function AfterOutcome(entries: map<string, string>, r: ServiceResult): (e: map<string, string>)
    ensures r == Error(UsernameExistsTag) ==> e == entries["username" := UsernameTakenText]
    ensures r != Error(UsernameExistsTag) ==> e == entries
  {
    if r == Error(UsernameExistsTag) then entries["username" := UsernameTakenText] else entries
  }

  /** A taken username, answered 400 by the server, shows 'Server error' and leaves the username
      field without a message. */
  lemma TakenUsernameShowsServerError(server: Wire -> Answer, deviceId: string, session: Session,
                                      username: string, password: string, entries: map<string, string>)
    requires server(Wire(RegisterUrl, RegisterBody(username, password), Bearer(session.token))) == Fail(AxiosError(Some(400)))
    ensures var r := StatusOutcome(Send(server, deviceId, session, RegisterUrl, RegisterBody(username, password), false).settled,
                                   UsernameExistTag);
            r == Error(ServerTag) && AfterOutcome(entries, r) == entries
  {
    TakenUsernameReportedAsServer(server, deviceId, session, RegisterBody(username, password));
  }

  /** The sign-up page: the form's data, its error store, the `serverError` and `loading`
      signals, and where the router was sent. */
  class Register {
    var username: string
    var password: string
    const errors: ErrorStore
    var serverError: string
    var loading: bool
    var navigatedTo: Option<string>
    const client: ApiClient

    constructor(client: ApiClient)
      ensures username == "" && password == ""
      ensures fresh(errors) && errors.entries == Blank(RegisterKeys)
      ensures serverError == "" && !loading && navigatedTo == None && this.client == client
    {
      username := "";
      password := "";
      errors := new ErrorStore(RegisterKeys);
      serverError := "";
      loading := false;
      navigatedTo := None;
      this.client := client;
    }

    /** `handleRegister`: only the field errors are reset, so a 'Server error' from an earlier
        submit stays on screen; only a valid form is sent. */
    method HandleRegister()
      modifies this, errors, client
      ensures username == old(username) && password == old(password)
      ensures RegisterIssues(username, password) != [] ==>
                && errors.entries == Written(old(errors.entries) + Blank(RegisterKeys), RegisterIssues(username, password))
                && serverError == old(serverError) && loading == old(loading) && navigatedTo == old(navigatedTo)
                && client.Snapshot() == old(client.Snapshot())
      ensures RegisterIssues(username, password) == [] ==>
                var x := Send(client.server, client.deviceId, old(client.session), RegisterUrl,
                              RegisterBody(username, password), false);
                var r := StatusOutcome(x.settled, UsernameExistTag);
                && !loading
                && client.Snapshot() == After(old(client.Snapshot()), x)
                && navigatedTo == (if r.Done? then Some(LoginPath) else old(navigatedTo))
                && serverError == (if r == Error(ServerTag) then ServerErrorText else old(serverError))
                && errors.entries == AfterOutcome(old(errors.entries) + Blank(RegisterKeys), r)
    {
      errors.Clear(RegisterKeys);
      var issues := RegisterIssues(username, password);
      if issues == [] {
        loading := true;
        var result := client.RegisterUser(username, password);
        loading := false;
        if result.Done? {
          navigatedTo := Some(LoginPath);
        } else {
          if result.errorType == ServerTag {
            serverError := ServerErrorText;
          }
          if result.errorType == UsernameExistsTag {
            errors.entries := errors.entries["username" := UsernameTakenText];
          }
        }
      } else {
        errors.WriteIssues(issues);
      }
    }
  }
}
