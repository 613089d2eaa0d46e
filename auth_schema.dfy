/** backend/src/auth/auth.schema.ts: the request bodies of the auth routes. */
module AuthSchema {
  import opened Wrappers
  import opened Http
  import opened JsText

  /** The fields an auth request body may carry. */
  datatype AuthBody = AuthBody(username: Field, password: Field, deviceId: Field)

  datatype Credentials = Credentials(username: string, password: string)

  datatype LoginRequest = LoginRequest(username: string, password: string, deviceId: string)

  /** `password: pipe(string(), minLength(4))`, four UTF-16 code units. */
  predicate PasswordOk(f: Field) {
    f.Text? && Utf16Length(f.value) >= 4
  }

  /** `registerUserSchema`: any username string, a password of at least four characters. */
  function ParseRegister(b: AuthBody): (r: Option<Credentials>)
    ensures r.Some? <==> b.username.Text? && b.password.Text? && Utf16Length(b.password.value) >= 4
    ensures r.Some? ==> r.value == Credentials(b.username.value, b.password.value)
  {
    if b.username.Text? && PasswordOk(b.password) then Some(Credentials(b.username.value, b.password.value))
    else None
  }

  /** `loginUserSchema`: the register fields plus a `deviceId` string. */
  function ParseLogin(b: AuthBody): (r: Option<LoginRequest>)
    ensures r.Some? <==> ParseRegister(b).Some? && b.deviceId.Text?
    ensures r.Some? ==> r.value == LoginRequest(b.username.value, b.password.value, b.deviceId.value)
  {
    if b.username.Text? && PasswordOk(b.password) && b.deviceId.Text? then
      Some(LoginRequest(b.username.value, b.password.value, b.deviceId.value))
    else None
  }

  /** `refreshSchema`, used by refresh and logout: only a `deviceId` string. */
  function ParseDevice(b: AuthBody): (r: Option<string>)
    ensures r.Some? <==> b.deviceId.Text?
    ensures r.Some? ==> r.value == b.deviceId.value
  {
    if b.deviceId.Text? then Some(b.deviceId.value) else None
  }

  /** No constraint on the username beyond being a string, and none on the device id: both may be
      empty. A password of three code units is refused by register and login alike. */
  lemma EmptyNamesAccepted(password: string, other: string)
    requires Utf16Length(password) >= 4 && Utf16Length(other) < 4
    ensures ParseRegister(AuthBody(Text(""), Text(password), Other)) == Some(Credentials("", password))
    ensures ParseLogin(AuthBody(Text(""), Text(password), Text(""))) == Some(LoginRequest("", password, ""))
    ensures ParseRegister(AuthBody(Text(""), Text(other), Other)).None?
    ensures ParseLogin(AuthBody(Text(""), Text(other), Text(""))).None?
  {
  }

  /** The length is counted in UTF-16 code units: a password of two emoji is long enough, one of
      three plain letters is not. */
  lemma TwoEmojiPasswordAccepted(username: string)
    ensures ParseRegister(AuthBody(Text(username), Text("\U{1F600}\U{1F600}"), Absent)).Some?
    ensures ParseRegister(AuthBody(Text(username), Text("abc"), Absent)).None?
  {
    AstralLength("\U{1F600}\U{1F600}");
    BasicPlaneLength("abc");
  }
}
