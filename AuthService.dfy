/** The authentication calls of src/services/authService.ts. Each wraps one
    request and narrows every failure to `false` plus an error toast: no failure
    escapes to the caller. `login` and `register` write the returned token to the
    store, and only when the request succeeded. */
module AuthService {
  import opened Json
  import opened Validation
  import opened Api
  import opened Browser

  const LoginFailureText: string := "邮箱或密码错误"
  const RegisterFailureText: string := "注册失败"
  const RegisterSuccessText: string := "注册成功"
  const SendCodeFailureText: string := "发送验证码失败"
  const SendCodeSuccessText: string := "验证码已发送"

  /** The signed-in user as the backend and the auth context describe it: `{ email, name? }`. */
  datatype UserInfo = UserInfo(email: string, name: Option<string>)

  /** `AuthResponseSchema`'s value. */
  datatype AuthResponse = AuthResponse(token: string, user: UserInfo)

  /** The `User` type of `UserSchema`: what `register` sends. */
  datatype User = User(email: string, password: string, verificationCode: string, name: Option<string>)

  /** `UserSchema`, which describes the shape of a registration but which
      `register` does not apply before sending. */
  function UserSchemaIssues(u: User, isEmail: string -> bool): (issues: seq<Issue>)
    ensures issues == [] <==>
              && isEmail(u.email)
              && |u.password| >= 6
              && |u.verificationCode| == 6
              && (u.name.None? || |u.name.value| >= 2)
    ensures forall i :: 0 <= i < |issues| ==> |issues[i].path| == 1
  {
    EmailCheck("email", u.email, isEmail, "请输入有效的邮箱地址")
    + MinLength("password", u.password, 6, "密码至少需要6位")
    + ExactLength("verificationCode", u.verificationCode, 6, "验证码必须为6位数字")
    + (if u.name.Some? then MinLength("name", u.name.value, 2, "名字至少需要2个字符") else [])
  }

  /** The accepted shape of an auth payload: a string token and a user object with
      a string email and, if present, a string name. */
  predicate IsAuthPayload(v: Option<Json>) {
    && v.Some? && v.value.JObj?
    && "token" in v.value.fields && v.value.fields["token"].JStr?
    && "user" in v.value.fields && v.value.fields["user"].JObj?
    && var u := v.value.fields["user"].fields;
       && "email" in u && u["email"].JStr?
       && ("name" !in u || u["name"].JStr?)
  }

  /** The `user` object of `AuthResponseSchema` at `path`. */
  function ParseUserInfo(path: seq<string>, v: Option<Json>): (r: Result<UserInfo, seq<Issue>>)
    ensures r.Success? <==>
              && v.Some? && v.value.JObj?
              && "email" in v.value.fields && v.value.fields["email"].JStr?
              && ("name" !in v.value.fields || v.value.fields["name"].JStr?)
    ensures r.Success? ==>
              && r.value.email == v.value.fields["email"].s
              && r.value.name == (if "name" in v.value.fields then Some(v.value.fields["name"].s) else None)
  {
    match v
    case Some(JObj(f)) =>
      var email := ExpectString(path + ["email"], Field(f, "email"));
      var name := ExpectOptionalString(path + ["name"], Field(f, "name"));
      if email.Success? && name.Success? then Success(UserInfo(email.value, name.value))
      else Failure(IssuesOf(email) + IssuesOf(name))
    case _ => Failure(NotAnObject(path, v))
  }

  /** `AuthResponseSchema`. */
  function ParseAuthResponse(v: Option<Json>): (r: Result<AuthResponse, seq<Issue>>)
    ensures r.Success? <==> IsAuthPayload(v)
    ensures r.Success? ==>
              && r.value.token == v.value.fields["token"].s
              && r.value.user.email == v.value.fields["user"].fields["email"].s
    ensures r.Failure? ==> r.error != []
  {
    match v
    case Some(JObj(f)) =>
      var token := ExpectString(["token"], Field(f, "token"));
      var user := ParseUserInfo(["user"], Field(f, "user"));
      if token.Success? && user.Success? then Success(AuthResponse(token.value, user.value))
      else Failure(IssuesOf(token) + IssuesOf(user))
    case _ => Failure(NotAnObject([], v))
  }

  function UserInfoToJson(u: UserInfo): Json {
    JObj(map["email" := JStr(u.email)] + (if u.name.Some? then map["name" := JStr(u.name.value)] else map[]))
  }

  /** The wire form of an auth payload, as a backend would send it. */
  function AuthResponseToJson(r: AuthResponse): Json {
    JObj(map["token" := JStr(r.token), "user" := UserInfoToJson(r.user)])
  }

  /** Every auth payload survives being sent and validated. */
  lemma AuthResponseRoundTrip(r: AuthResponse)
    ensures ParseAuthResponse(Some(AuthResponseToJson(r))) == Success(r)
  {
    var f := AuthResponseToJson(r).fields;
    var u := UserInfoToJson(r.user).fields;
    assert f["user"] == UserInfoToJson(r.user);
    assert "name" in u <==> r.user.name.Some?;
    assert r.user.name.Some? ==> u["name"] == JStr(r.user.name.value);
    assert ParseUserInfo(["user"], Field(f, "user")) == Success(r.user);
  }

  /** `z.object({ success: z.boolean() })`. */
  function ParseSendCodeReply(v: Option<Json>): (r: Result<bool, seq<Issue>>)
    ensures r.Success? <==> v.Some? && v.value.JObj? && "success" in v.value.fields && v.value.fields["success"].JBool?
  {
    match v
    case Some(JObj(f)) => ExpectBool(["success"], Field(f, "success"))
    case _ => Failure(NotAnObject([], v))
  }

  function SendCodeConfig(email: string): RequestConfig {
    RequestConfig(Some(POST), None, Some(JObj(map["email" := JStr(email)])), None)
  }

  function LoginConfig(email: string, password: string): RequestConfig {
    RequestConfig(Some(POST), None, Some(JObj(map["email" := JStr(email), "password" := JStr(password)])), None)
  }

  /** `JSON.stringify(user)`: an absent name is left out. */
  function UserToJson(u: User): Json {
    JObj(map["email" := JStr(u.email), "password" := JStr(u.password), "verificationCode" := JStr(u.verificationCode)]
         + (if u.name.Some? then map["name" := JStr(u.name.value)] else map[]))
  }

  function RegisterConfig(u: User): RequestConfig {
    RequestConfig(Some(POST), None, Some(UserToJson(u)), None)
  }

  /** `sendVerificationCode(email)`: true exactly when the request succeeds. */
  function SendVerificationCode(env: Env, email: string): (ok: bool)
    ensures ok <==> Request(env, "/auth/send-code", ParseSendCodeReply, Some(SendCodeConfig(email))).Success?
  {
    Request(env, "/auth/send-code", ParseSendCodeReply, Some(SendCodeConfig(email))).Success?
  }

  /** The toast `sendVerificationCode` shows for its outcome. */
  function SendCodeNotice(ok: bool): (t: Toast)
    ensures ok <==> t.ToastSuccess?
  {
    if ok then ToastSuccess(SendCodeSuccessText) else ToastError(SendCodeFailureText)
  }

  /** A code-sending reply counts as success even when it says `success: false`:
      only the shape of the payload is checked. */
  lemma SendCodeIgnoresSuccessFlag(env: Env, email: string, status: nat)
    requires env.fetch(Url(env, "/auth/send-code"), FetchInitAsWritten(Some(SendCodeConfig(email))))
             == Responded(Response(true, status, Some(EnvelopeToJson(Envelope(200, None, Some(JObj(map["success" := JBool(false)])))))))
    ensures SendVerificationCode(env, email)
  {
    AsWrittenAgreesWithoutCallerHeaders(Some(SendCodeConfig(email)));
    SuccessEnvelopeYieldsPayload(status, None, Some(JObj(map["success" := JBool(false)])), ParseSendCodeReply);
  }

  /** The request `login(email, password)` makes, and what it yields. */
  function LoginOutcome(env: Env, email: string, password: string): Result<AuthResponse, RequestError> {
    Request(env, "/auth/login", ParseAuthResponse, Some(LoginConfig(email, password)))
  }

  /** The request `register(user)` makes, and what it yields. */
  function RegisterOutcome(env: Env, u: User): Result<AuthResponse, RequestError> {
    Request(env, "/auth/register", ParseAuthResponse, Some(RegisterConfig(u)))
  }

  /** None of the three calls passes `headers` of its own, so each behaves as the
      code is written. */
  lemma AuthRequestsAsWritten(env: Env, email: string, password: string, u: User)
    ensures SendVerificationCode(env, email)
            <==> RequestAsWritten(env, "/auth/send-code", ParseSendCodeReply, Some(SendCodeConfig(email))).Success?
    ensures LoginOutcome(env, email, password)
            == RequestAsWritten(env, "/auth/login", ParseAuthResponse, Some(LoginConfig(email, password)))
    ensures RegisterOutcome(env, u)
            == RequestAsWritten(env, "/auth/register", ParseAuthResponse, Some(RegisterConfig(u)))
  {
    RequestAgreesWithoutCallerHeaders(env, "/auth/send-code", ParseSendCodeReply, Some(SendCodeConfig(email)));
    RequestAgreesWithoutCallerHeaders(env, "/auth/login", ParseAuthResponse, Some(LoginConfig(email, password)));
    RequestAgreesWithoutCallerHeaders(env, "/auth/register", ParseAuthResponse, Some(RegisterConfig(u)));
  }

  /** `login(email, password)`: on success the token is stored under 'authToken'
      and true returned; on any failure the store is untouched, false is returned
      and the same message is shown whatever went wrong. */
  method Login(env: Env, store: Storage, email: string, password: string) returns (ok: bool, notice: Option<Toast>)
    modifies store
    ensures ok <==> LoginOutcome(env, email, password).Success?
    ensures ok ==> store.items == old(store.items)[AuthTokenKey := LoginOutcome(env, email, password).value.token]
    ensures !ok ==> store.items == old(store.items)
    ensures notice == if ok then None else Some(ToastError(LoginFailureText))
  {
    var outcome := LoginOutcome(env, email, password);
    match outcome
    case Success(response) =>
      store.SetItem(AuthTokenKey, response.token);
      ok, notice := true, None;
    case Failure(_) =>
      ok, notice := false, Some(ToastError(LoginFailureText));
  }

  /** `register(user)`: the same contract as `login`, with its own messages. */
  method Register(env: Env, store: Storage, u: User) returns (ok: bool, notice: Toast)
    modifies store
    ensures ok <==> RegisterOutcome(env, u).Success?
    ensures ok ==> store.items == old(store.items)[AuthTokenKey := RegisterOutcome(env, u).value.token]
    ensures !ok ==> store.items == old(store.items)
    ensures notice == if ok then ToastSuccess(RegisterSuccessText) else ToastError(RegisterFailureText)
  {
    var outcome := RegisterOutcome(env, u);
    match outcome
    case Success(response) =>
      store.SetItem(AuthTokenKey, response.token);
      ok, notice := true, ToastSuccess(RegisterSuccessText);
    case Failure(_) =>
      ok, notice := false, ToastError(RegisterFailureText);
  }

  /** A backend that answers a login with a well-formed auth payload logs the user
      in with exactly that payload. */
  lemma LoginAcceptsWellFormedReply(env: Env, email: string, password: string, status: nat, reply: AuthResponse)
    requires env.fetch(Url(env, "/auth/login"), FetchInitAsWritten(Some(LoginConfig(email, password))))
             == Responded(Response(true, status, Some(EnvelopeToJson(Envelope(200, None, Some(AuthResponseToJson(reply)))))))
    ensures LoginOutcome(env, email, password) == Success(reply)
  {
    AsWrittenAgreesWithoutCallerHeaders(Some(LoginConfig(email, password)));
    SuccessEnvelopeYieldsPayload(status, None, Some(AuthResponseToJson(reply)), ParseAuthResponse);
    AuthResponseRoundTrip(reply);
  }

  /** A backend that answers a registration with a well-formed auth payload
      registers the user with exactly that payload. */
  lemma RegisterAcceptsWellFormedReply(env: Env, u: User, status: nat, reply: AuthResponse)
    requires env.fetch(Url(env, "/auth/register"), FetchInitAsWritten(Some(RegisterConfig(u))))
             == Responded(Response(true, status, Some(EnvelopeToJson(Envelope(200, None, Some(AuthResponseToJson(reply)))))))
    ensures RegisterOutcome(env, u) == Success(reply)
  {
    AsWrittenAgreesWithoutCallerHeaders(Some(RegisterConfig(u)));
    SuccessEnvelopeYieldsPayload(status, None, Some(AuthResponseToJson(reply)), ParseAuthResponse);
    AuthResponseRoundTrip(reply);
  }

  /** `register` sends whatever it is given: a user that `UserSchema` rejects is
      still registered when the backend accepts it. */
  lemma RegisterDoesNotApplyUserSchema(env: Env, isEmail: string -> bool, status: nat, reply: AuthResponse)
    requires var u := User("x", "1", "1", Some("a"));
             env.fetch(Url(env, "/auth/register"), FetchInitAsWritten(Some(RegisterConfig(u))))
             == Responded(Response(true, status, Some(EnvelopeToJson(Envelope(200, None, Some(AuthResponseToJson(reply)))))))
    ensures var u := User("x", "1", "1", Some("a"));
            UserSchemaIssues(u, isEmail) != [] && RegisterOutcome(env, u) == Success(reply)
  {
    RegisterAcceptsWellFormedReply(env, User("x", "1", "1", Some("a")), status, reply);
  }
}
