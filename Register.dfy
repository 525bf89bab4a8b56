/** The registration page of src/pages/Register.tsx: the form schema, the
    send-code handler with its 60-second countdown, the send button's enable rule,
    and the submit handler. Each firing of a countdown interval is one `Tick`. */
module Register {
  import opened Json
  import opened Validation
  import opened Api
  import opened Browser
  import opened AuthService
  import opened AuthContext
  import App

  const CountdownStart: nat := 60
  const EmptyEmailText: string := "请输入邮箱地址"

  /** The form's fields as react-hook-form hands them over. */
  datatype RegisterForm = RegisterForm(name: string, email: string, password: string, verificationCode: string)

  /** `registerSchema`'s issues, in field order. The code's length is checked, its
      characters are not. */
  function RegisterIssues(form: RegisterForm, isEmail: string -> bool): (issues: seq<Issue>)
    ensures issues == [] <==>
              && |form.name| >= 2
              && isEmail(form.email)
              && |form.password| >= 6
              && |form.verificationCode| == 6
  {
    MinLength("name", form.name, 2, "名字至少需要2个字符")
    + EmailCheck("email", form.email, isEmail, "请输入有效的邮箱地址")
    + MinLength("password", form.password, 6, "密码至少需要6位")
    + ExactLength("verificationCode", form.verificationCode, 6, "验证码必须为6位数字")
  }

  /** A six-letter code passes the schema: nothing requires digits. */
  lemma CodeNeedNotBeDigits(isEmail: string -> bool)
    requires isEmail("a@b.c")
    ensures RegisterIssues(RegisterForm("ab", "a@b.c", "secret", "abcdef"), isEmail) == []
  {
  }

  /** The validated data passed to `register`. */
  function FormToUser(form: RegisterForm): User {
    User(form.email, form.password, form.verificationCode, Some(form.name))
  }

  /** Whatever passes the page's schema also passes `UserSchema`. */
  lemma RegisterFormSatisfiesUserSchema(form: RegisterForm, isEmail: string -> bool)
    requires RegisterIssues(form, isEmail) == []
    ensures UserSchemaIssues(FormToUser(form), isEmail) == []
  {
  }

  /** One firing of the interval: `prev <= 1 ? 0 : prev - 1`. */
  function TickValue(prev: nat): (next: nat)
    ensures next < prev || prev == 0
    ensures next == 0 <==> prev <= 1
  {
    if prev <= 1 then 0 else prev - 1
  }

  /** The countdown after `n` firings from `start`. */
  function Ticks(start: nat, n: nat): nat
    decreases n
  {
    if n == 0 then start else TickValue(Ticks(start, n - 1))
  }

  /** Each firing takes one second off, down to zero and never below. */
  lemma {:induction false} TicksCount(start: nat, n: nat)
    ensures Ticks(start, n) == if n >= start then 0 else start - n
    decreases n
  {
    if n > 0 {
      TicksCount(start, n - 1);
    }
  }

  /** Sixty firings bring a fresh countdown to zero, and no fewer do. */
  lemma SixtyTicksEndTheCountdown(n: nat)
    ensures Ticks(CountdownStart, n) == 0 <==> n >= 60
  {
    TicksCount(CountdownStart, n);
  }

  /** `disabled={codeSent && countdown > 0}`, negated. */
  function SendButtonEnabled(codeSent: bool, countdown: nat): (enabled: bool)
    ensures enabled <==> !codeSent || countdown == 0
  {
    !(codeSent && countdown > 0)
  }

  /** After a code is sent, the button stays disabled for exactly sixty firings. */
  lemma ButtonDisabledDuringCountdown(n: nat)
    ensures SendButtonEnabled(true, Ticks(CountdownStart, n)) <==> n >= 60
  {
    TicksCount(CountdownStart, n);
  }

  /** What react-hook-form's own `register`, which the page's `useForm` binding
      puts in scope in place of the service's, does when handed the form values
      as a field name: it throws, or it returns its field props, which are truthy. */
  datatype FieldRegistration = RegistrationThrew | RegistrationReturned

  /** The page's state. `activeTimers` counts the intervals still running: each
      clears itself on the firing that takes the countdown to zero. */
  class RegisterPage {
    var isLoading: bool
    var codeSent: bool
    var countdown: nat
    var activeTimers: nat

    /** The countdown never exceeds its start, and a running countdown has an
        interval to finish it. */
    predicate Valid()
      reads this
    {
      countdown <= CountdownStart && (countdown > 0 ==> activeTimers > 0)
    }

    constructor ()
      ensures !isLoading && !codeSent && countdown == 0 && activeTimers == 0
      ensures Valid()
    {
      isLoading := false;
      codeSent := false;
      countdown := 0;
      activeTimers := 0;
    }

    /** `handleSendCode(email)`. A missing or empty email only shows a toast: no
        state changes and nothing is sent (`called` is false). Otherwise the code
        is marked sent, the countdown restarts at 60 with a new interval, and the
        code is requested; `sendVerificationCode` never throws, so the reset in
        the catch is never reached and `codeSent` stays true even when sending fails. */
    method HandleSendCode(env: Env, email: Option<string>) returns (called: bool, notice: Toast)
      requires Valid()
      modifies this
      ensures Valid()
      ensures called <==> email.Some? && email.value != ""
      ensures !called ==> notice == ToastError(EmptyEmailText)
      ensures !called ==> codeSent == old(codeSent) && countdown == old(countdown) && activeTimers == old(activeTimers)
      ensures called ==> codeSent && countdown == CountdownStart && activeTimers == old(activeTimers) + 1
      ensures called ==> notice == SendCodeNotice(SendVerificationCode(env, email.value))
      ensures isLoading == old(isLoading)
    {
      if email.None? || email.value == "" {
        called, notice := false, ToastError(EmptyEmailText);
        return;
      }
      codeSent := true;
      countdown := CountdownStart;
      activeTimers := activeTimers + 1;
      var ok := SendVerificationCode(env, email.value);
      called, notice := true, SendCodeNotice(ok);
    }

    /** One firing of one running interval. */
    method Tick()
      requires Valid() && activeTimers > 0
      modifies this
      ensures Valid()
      ensures countdown == TickValue(old(countdown))
      ensures activeTimers == if old(countdown) <= 1 then old(activeTimers) - 1 else old(activeTimers)
      ensures codeSent == old(codeSent) && isLoading == old(isLoading)
    {
      if countdown <= 1 {
        activeTimers := activeTimers - 1;
        countdown := 0;
      } else {
        countdown := countdown - 1;
      }
    }

    /** The button's enable rule on the current state. */
    function CanSendCode(): (enabled: bool)
      reads this
      ensures enabled == SendButtonEnabled(codeSent, countdown)
    {
      !(codeSent && countdown > 0)
    }

    /** Submitting the form as evidently intended, with the service's `register`:
        react-hook-form runs `onSubmit` only when the schema passes, so an invalid
        form returns its issues with nothing sent or changed. A valid one is
        registered; only on success is the user marked authenticated (through the
        hook, a no-op before it is initialised) and sent to '/'. `isLoading` is
        false afterwards either way. */
    method Submit(env: Env, store: Storage, hook: AuthHook, form: RegisterForm, isEmail: string -> bool)
      returns (issues: seq<Issue>, navigateTo: Option<string>, notices: seq<Toast>)
      requires hook.context.Valid()
      modifies this, store, hook.context
      ensures hook.context.Valid()
      ensures issues == RegisterIssues(form, isEmail)
      ensures issues != [] ==> store.items == old(store.items) && navigateTo == None && notices == []
      ensures issues != [] ==> hook.context.isAuthenticated == old(hook.context.isAuthenticated)
      ensures issues == [] ==> var outcome := RegisterOutcome(env, FormToUser(form));
              && (outcome.Success? ==> store.items == old(store.items)[AuthTokenKey := outcome.value.token])
              && (outcome.Failure? ==> store.items == old(store.items))
              && (navigateTo.Some? <==> outcome.Success?)
              && (outcome.Success? ==> navigateTo == Some(App.HomePath)
                                       && notices == [ToastSuccess(RegisterSuccessText), ToastSuccess(RegisterSuccessText)])
              && (outcome.Failure? ==> notices == [ToastError(RegisterFailureText)])
              && hook.context.isAuthenticated == (if outcome.Success? && hook.initialized then true else old(hook.context.isAuthenticated))
      ensures hook.context.user == old(hook.context.user)
      ensures isLoading == (if issues == [] then false else old(isLoading))
      ensures codeSent == old(codeSent) && countdown == old(countdown) && activeTimers == old(activeTimers)
    {
      issues := RegisterIssues(form, isEmail);
      if issues != [] {
        navigateTo, notices := None, [];
        return;
      }
      isLoading := true;
      var ok, notice := AuthService.Register(env, store, FormToUser(form));
      notices := [notice];
      navigateTo := None;
      if ok {
        hook.SetIsAuthenticated(true);
        notices := notices + [ToastSuccess(RegisterSuccessText)];
        navigateTo := Some(App.HomePath);
      }
      isLoading := false;
    }

    /** Submitting the form as written: the `register` that `onSubmit` calls is
        react-hook-form's, so no request is made and the store is never written.
        When that call throws, the catch swallows the error and only `isLoading`
        moves (and ends false). When it returns, its truthy result is taken for
        success: the user is marked authenticated, told so once, and sent to '/'. */
    method SubmitAsWritten(store: Storage, hook: AuthHook, form: RegisterForm, isEmail: string -> bool, call: FieldRegistration)
      returns (issues: seq<Issue>, navigateTo: Option<string>, notices: seq<Toast>)
      requires hook.context.Valid()
      modifies this, hook.context
      ensures hook.context.Valid()
      ensures store.items == old(store.items)
      ensures issues == RegisterIssues(form, isEmail)
      ensures issues != [] || call == RegistrationThrew ==>
                navigateTo == None && notices == [] && hook.context.isAuthenticated == old(hook.context.isAuthenticated)
      ensures issues == [] && call == RegistrationReturned ==>
                && navigateTo == Some(App.HomePath)
                && notices == [ToastSuccess(RegisterSuccessText)]
                && hook.context.isAuthenticated == (if hook.initialized then true else old(hook.context.isAuthenticated))
      ensures hook.context.user == old(hook.context.user)
      ensures isLoading == (if issues == [] then false else old(isLoading))
      ensures codeSent == old(codeSent) && countdown == old(countdown) && activeTimers == old(activeTimers)
    {
      issues := RegisterIssues(form, isEmail);
      navigateTo, notices := None, [];
      if issues != [] {
        return;
      }
      isLoading := true;
      if call == RegistrationReturned {
        hook.SetIsAuthenticated(true);
        notices := [ToastSuccess(RegisterSuccessText)];
        navigateTo := Some(App.HomePath);
      }
      isLoading := false;
    }
  }

  /** A valid form and a backend that accepts the registration: as written the
      store is left without a token, whatever the library call does, while the
      corrected handler stores the token the backend sent. Both start from an
      empty store. */
  method AcceptedRegistrationAsWrittenAndCorrected(env: Env, hook: AuthHook, form: RegisterForm, isEmail: string -> bool,
                                                   call: FieldRegistration, status: nat, reply: AuthResponse)
    returns (asWritten: map<string, string>, corrected: map<string, string>)
    requires hook.context.Valid()
    requires RegisterIssues(form, isEmail) == []
    requires env.fetch(Url(env, "/auth/register"), FetchInitAsWritten(Some(RegisterConfig(FormToUser(form)))))
             == Responded(Response(true, status, Some(EnvelopeToJson(Envelope(200, None, Some(AuthResponseToJson(reply)))))))
    modifies hook.context
    ensures AuthTokenKey !in asWritten
    ensures corrected == map[AuthTokenKey := reply.token]
  {
    var store := new Storage(map[]);
    var page := new RegisterPage();
    var issues, navigateTo, notices := page.SubmitAsWritten(store, hook, form, isEmail, call);
    asWritten := store.items;
    RegisterAcceptsWellFormedReply(env, FormToUser(form), status, reply);
    store := new Storage(map[]);
    page := new RegisterPage();
    issues, navigateTo, notices := page.Submit(env, store, hook, form, isEmail);
    corrected := store.items;
  }

  /** Sending a code and letting its interval fire sixty times ends the countdown,
      stops that interval and enables the button again. */
  method SendAndWait(page: RegisterPage, env: Env, email: string)
    requires page.Valid() && page.activeTimers == 0 && email != ""
    modifies page
    ensures page.Valid()
    ensures page.codeSent && page.countdown == 0 && page.activeTimers == 0
    ensures page.CanSendCode()
  {
    var called, notice := page.HandleSendCode(env, Some(email));
    var n := 0;
    while n < 60
      invariant 0 <= n <= 60
      invariant page.Valid() && page.codeSent
      invariant page.countdown == Ticks(CountdownStart, n)
      invariant page.activeTimers == if n < 60 then 1 else 0
    {
      TicksCount(CountdownStart, n);
      page.Tick();
      n := n + 1;
    }
    TicksCount(CountdownStart, 60);
  }
}
