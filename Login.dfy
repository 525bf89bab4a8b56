/** The sign-in page of src/pages/Login.tsx: the form schema and the submit
    handler, which marks the user authenticated and goes home only when `login`
    succeeds. */
module Login {
  import opened Json
  import opened Validation
  import opened Api
  import opened Browser
  import opened AuthService
  import opened AuthContext
  import App

  const LoginSuccessText: string := "登录成功"

  datatype LoginForm = LoginForm(email: string, password: string)

  /** `loginSchema`'s issues, in field order. */
  function LoginIssues(form: LoginForm, isEmail: string -> bool): (issues: seq<Issue>)
    ensures issues == [] <==> isEmail(form.email) && |form.password| >= 6
    ensures forall i :: 0 <= i < |issues| ==> issues[i].path == ["email"] || issues[i].path == ["password"]
  {
    EmailCheck("email", form.email, isEmail, "请输入有效的邮箱地址")
    + MinLength("password", form.password, 6, "密码至少需要6位")
  }

  /** A short password is reported under "password", and only there, whatever the email. */
  lemma ShortPasswordReported(form: LoginForm, isEmail: string -> bool)
    requires |form.password| < 6
    ensures Issue(["password"], "密码至少需要6位") in LoginIssues(form, isEmail)
    ensures isEmail(form.email) ==> LoginIssues(form, isEmail) == [Issue(["password"], "密码至少需要6位")]
  {
    var e := EmailCheck("email", form.email, isEmail, "请输入有效的邮箱地址");
    assert LoginIssues(form, isEmail)[|e|] == Issue(["password"], "密码至少需要6位");
  }

  /** The page's state. */
  class LoginPage {
    var isLoading: bool

    constructor ()
      ensures !isLoading
    {
      isLoading := false;
    }

    /** Submitting the form: react-hook-form runs `onSubmit` only when the schema
        passes, so an invalid form returns its issues with nothing sent or
        changed. A valid one is signed in; only on success is the user marked
        authenticated (through the hook, a no-op before it is initialised), told
        so, and sent to '/'. A failed sign-in leaves the auth state alone.
        `isLoading` is false afterwards either way. */
    method Submit(env: Env, store: Storage, hook: AuthHook, form: LoginForm, isEmail: string -> bool)
      returns (issues: seq<Issue>, navigateTo: Option<string>, notices: seq<Toast>)
      requires hook.context.Valid()
      modifies this, store, hook.context
      ensures hook.context.Valid()
      ensures issues == LoginIssues(form, isEmail)
      ensures issues != [] ==> store.items == old(store.items) && navigateTo == None && notices == []
      ensures issues != [] ==> hook.context.isAuthenticated == old(hook.context.isAuthenticated)
      ensures issues == [] ==> var outcome := LoginOutcome(env, form.email, form.password);
              && (outcome.Success? ==> store.items == old(store.items)[AuthTokenKey := outcome.value.token])
              && (outcome.Failure? ==> store.items == old(store.items))
              && (navigateTo.Some? <==> outcome.Success?)
              && (outcome.Success? ==> navigateTo == Some(App.HomePath) && notices == [ToastSuccess(LoginSuccessText)])
              && (outcome.Failure? ==> notices == [ToastError(LoginFailureText)])
              && hook.context.isAuthenticated == (if outcome.Success? && hook.initialized then true else old(hook.context.isAuthenticated))
      ensures hook.context.user == old(hook.context.user)
      ensures isLoading == (if issues == [] then false else old(isLoading))
    {
      issues := LoginIssues(form, isEmail);
      if issues != [] {
        navigateTo, notices := None, [];
        return;
      }
      isLoading := true;
      var ok, notice := AuthService.Login(env, store, form.email, form.password);
      notices := if notice.Some? then [notice.value] else [];
      navigateTo := None;
      if ok {
        hook.SetIsAuthenticated(true);
        notices := notices + [ToastSuccess(LoginSuccessText)];
        navigateTo := Some(App.HomePath);
      }
      isLoading := false;
    }
  }
}
