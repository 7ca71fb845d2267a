/** `client/src/contexts/AuthContext.tsx`: the provider's `user` / `isLoading` state, set
    once from storage when the provider mounts, recomputed on `refreshUser` and cleared
    on `signOut`. The exposed `isAuthenticated` is derived from `user`. */
module AuthContext {
  import opened Base
  import opened JsonText
  import opened Storage
  import CognitoSession
  import CognitoConfig

  const OutsideProviderMessage := "useAuth must be used within an AuthProvider"

  /** The user the provider settles on after consulting storage: the stored record when
      storage reports a session, none otherwise, and none when reading storage throws. */
  function ContextUser(items: map<string, string>, blocked: bool): (u: Option<User>)
    ensures u.Some? ==> !blocked && CognitoSession.SessionPresent(items)
    ensures !blocked ==> u == CognitoSession.StoredUser(items)
  {
    if blocked then None
    else if CognitoSession.SessionPresent(items) then CognitoSession.StoredUser(items)
    else None
  }

  /** Storage can report a session that the context does not: an authorization code with
      no readable user record (absent, empty or unparseable) leaves the context anonymous. */
  lemma AuthCodeAloneIsAnonymous(items: map<string, string>)
    requires Truthy(Get(items, CognitoSession.AuthCodeKey))
    requires CognitoSession.StoredUser(items) == None
    ensures CognitoSession.SessionPresent(items)
    ensures ContextUser(items, false) == None
  {
  }

  /** The `try` block shared by the mount-time check and `refreshUser`: ask storage
      whether there is a session and, if so, read the user record. */
  method ReadSessionUser(store: LocalStorage) returns (r: Completion<Option<User>>)
    ensures r == if store.blocked then Threw(SecurityError) else Returned(ContextUser(store.items, false))
  {
    var status := CognitoSession.IsAuthenticated(store);
    match status {
      case Threw(thrown) =>
        r := Threw(thrown);
      case Returned(authenticated) =>
        if authenticated {
          r := CognitoSession.GetCurrentUser(store);
        } else {
          r := Returned(None);
        }
    }
  }

  class AuthProvider {
    var user: Option<User>
    var isLoading: bool
    const store: LocalStorage

    /** The state at mount: no user, loading. */
    constructor (store: LocalStorage)
      ensures user == None && isLoading && this.store == store
    {
      user := None;
      isLoading := true;
      this.store := store;
    }

    /** The exposed `isAuthenticated`: a user is held. */
    predicate IsAuthenticated()
      reads this
      ensures IsAuthenticated() <==> user != None
    {
      user.Some?
    }

    /** The mount-time check: consults storage, treats a throw as "no user", and always
        ends loading. */
    method CheckAuth()
      modifies this`user, this`isLoading
      ensures !isLoading
      ensures user == ContextUser(store.items, store.blocked)
      ensures IsAuthenticated() ==> !store.blocked && CognitoSession.SessionPresent(store.items)
    {
      var outcome := ReadSessionUser(store);
      match outcome {
        case Threw(_) => user := None;
        case Returned(record) => user := record;
      }
      isLoading := false;
    }

    /** `refreshUser`: the same rule as the mount-time check, leaving `isLoading` alone. */
    method RefreshUser()
      modifies this`user
      ensures user == ContextUser(store.items, store.blocked)
      ensures IsAuthenticated() ==> !store.blocked && CognitoSession.SessionPresent(store.items)
    {
      var outcome := ReadSessionUser(store);
      match outcome {
        case Threw(_) => user := None;
        case Returned(record) => user := record;
      }
    }

    /** `signOut`: drops the user first, then clears the session keys and yields the
        logout URL; a storage failure propagates after the user is already gone. */
    method SignOut(config: CognitoConfig.Config, uriEncode: string -> string) returns (r: Completion<string>)
      modifies this`user, store`items
      ensures user == None && !IsAuthenticated()
      ensures r == if store.blocked then Threw(SecurityError) else Returned(CognitoConfig.LogoutUrl(config, uriEncode))
      ensures store.items == if store.blocked then old(store.items)
                             else old(store.items) - {CognitoSession.AuthCodeKey, CognitoSession.UserKey}
    {
      user := None;
      r := CognitoSession.SignOut(store, config, uriEncode);
    }
  }

  /** Refreshing twice on unchanged storage gives the state of one refresh, and
      neither refresh touches `isLoading`. */
  method RefreshTwice(p: AuthProvider) returns (first: Option<User>, second: Option<User>)
    modifies p`user
    ensures first == second == p.user
    ensures p.isLoading == old(p.isLoading)
  {
    p.RefreshUser();
    first := p.user;
    p.RefreshUser();
    second := p.user;
  }

  /** `useAuth`: the provider's value, or an error outside a provider. */
  function UseAuth(context: AuthProvider?): (r: Completion<AuthProvider>)
    ensures r.Threw? <==> context == null
    ensures r.Returned? ==> r.value == context
    ensures r.Threw? ==> r.message == OutsideProviderMessage
  {
    if context == null then Threw(OutsideProviderMessage) else Returned(context)
  }
}
