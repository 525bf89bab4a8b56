/** The auth context of src/context/AuthContext.ts: the default context (used
    where no provider is present), and the `useAuth` hook, which serves a guest
    stub until its one-time effect has run and the provider's state afterwards.
    The effect restores a session from any non-empty stored token, unchecked. */
module AuthContext {
  import opened Json
  import opened Browser
  import opened AuthService
  import opened App

  /** The user the effect installs, whatever the token. */
  const RestoredUser: UserInfo := UserInfo("user@example.com", Some("QQ用户"))

  /** The data part of what `useAuth` returns. */
  datatype ContextView = ContextView(isAuthenticated: bool, user: Option<UserInfo>)

  /** The guest stub served before initialisation, and the default context's data. */
  const GuestView: ContextView := ContextView(false, None)

  /** `token && ...`: a missing or empty stored token is falsy. */
  predicate HasToken(token: Option<string>) {
    token.Some? && token.value != ""
  }

  /** The session state the effect leaves, from the stored token and the state it finds. */
  function EffectOutcome(token: Option<string>, before: ContextView): (after: ContextView)
    ensures HasToken(token) && !before.isAuthenticated ==> after == ContextView(true, Some(RestoredUser))
    ensures !(HasToken(token) && !before.isAuthenticated) ==> after == before
  {
    if HasToken(token) && !before.isAuthenticated then ContextView(true, Some(RestoredUser)) else before
  }

  /** After the effect, a stored token always means a signed-in session. */
  lemma EffectAuthenticatesAnyToken(token: string, before: ContextView)
    requires token != ""
    ensures EffectOutcome(Some(token), before).isAuthenticated
    ensures !before.isAuthenticated ==> EffectOutcome(Some(token), before).user == Some(RestoredUser)
  {
  }

  /** Running the effect again changes nothing more. */
  lemma EffectIdempotent(token: Option<string>, before: ContextView)
    ensures EffectOutcome(token, EffectOutcome(token, before)) == EffectOutcome(token, before)
  {
  }

  /** App's `logout` leaves the token stored, so the next mount of the hook signs
      the same browser straight back in. */
  lemma LogoutUndoneByNextMount(token: string)
    requires token != ""
    ensures var loggedOut := ContextView(false, None);
            EffectOutcome(Some(token), loggedOut) == ContextView(true, Some(RestoredUser))
  {
  }

  /** The default context's `logout`: removes the stored token and nothing else. */
  method DefaultLogout(store: Storage)
    modifies store
    ensures store.items == old(store.items) - {AuthTokenKey}
    ensures !HasToken(store.GetItem(AuthTokenKey))
  {
    store.RemoveItem(AuthTokenKey);
  }

  /** One component's `useAuth()`: its `initialized` flag over the provider's state. */
  class AuthHook {
    var initialized: bool
    const context: AppState

    constructor (context: AppState)
      ensures !initialized && this.context == context
    {
      initialized := false;
      this.context := context;
    }

    /** What the hook returns: the guest stub until initialised, the provider's state after. */
    function View(): (v: ContextView)
      reads this, context
      ensures !initialized ==> v == GuestView
      ensures initialized ==> v.isAuthenticated == context.isAuthenticated && v.user == context.user
    {
      if initialized then ContextView(context.isAuthenticated, context.user) else GuestView
    }

    /** The mount effect: restores a session from the stored token when the provider
        is signed out, then marks the hook initialised. The store is only read. */
    method RunEffect(store: Storage)
      requires context.Valid()
      modifies this, context
      ensures context.Valid()
      ensures initialized
      ensures ContextView(context.isAuthenticated, context.user)
              == EffectOutcome(store.GetItem(AuthTokenKey), ContextView(old(context.isAuthenticated), old(context.user)))
    {
      var token := store.GetItem(AuthTokenKey);
      if HasToken(token) && !context.isAuthenticated {
        context.SetIsAuthenticated(true);
        context.SetUser(Some(RestoredUser));
      }
      initialized := true;
    }

    /** `setIsAuthenticated` as the hook hands it out: a no-op before initialisation. */
    method SetIsAuthenticated(value: bool)
      requires context.Valid()
      modifies context
      ensures context.Valid()
      ensures context.isAuthenticated == (if initialized then value else old(context.isAuthenticated))
      ensures context.user == old(context.user)
    {
      if initialized {
        context.SetIsAuthenticated(value);
      }
    }

    /** `setUser` as the hook hands it out: a no-op before initialisation. */
    method SetUser(value: Option<UserInfo>)
      requires context.Valid()
      modifies context
      ensures context.Valid()
      ensures context.user == (if initialized then value else old(context.user))
      ensures context.isAuthenticated == old(context.isAuthenticated)
    {
      if initialized {
        context.SetUser(value);
      }
    }

    /** `logout` as the hook hands it out: App's `logout` once initialised, a no-op
        before; neither touches the store. */
    method Logout()
      requires context.Valid()
      modifies context
      ensures context.Valid()
      ensures initialized ==> !context.isAuthenticated && context.user == None
      ensures !initialized ==> context.isAuthenticated == old(context.isAuthenticated) && context.user == old(context.user)
    {
      if initialized {
        context.Logout();
      }
    }
  }

  /** Signing out through App and mounting a fresh hook: the stored token signs the
      user back in. */
  method LogoutThenRemount(app: AppState, store: Storage) returns (view: ContextView)
    requires app.Valid()
    requires HasToken(store.GetItem(AuthTokenKey))
    modifies app
    ensures view == ContextView(true, Some(RestoredUser))
  {
    app.Logout();
    var hook := new AuthHook(app);
    hook.RunEffect(store);
    view := hook.View();
  }
}
