/** The session half of `client/src/config/cognito.ts`: reading the authorization
    response on the callback page, and the two fixed `localStorage` keys that hold the
    session (`cognito_auth_code` and `cognito_user`). */
module CognitoSession {
  import opened Base
  import opened JsonText
  import opened Storage
  import SearchParams
  import CognitoConfig

  const AuthCodeKey := "cognito_auth_code"
  const UserKey := "cognito_user"
  const NoCodeMessage := "No authorization code received"

  /** What `handleCognitoCallback` reports. */
  datatype CallbackResult = Success(code: string) | Failure(error: string)

  // ---------------------------------------------------------------------------
  // Specification on storage contents

  /** The authorization response carried by the query: a non-empty `error` wins over
      any `code`; otherwise a non-empty `code` is a success; otherwise a failure. */
  function ParseCallback(query: SearchParams.Params): (r: CallbackResult)
    ensures var error, code := SearchParams.Get(query, "error"), SearchParams.Get(query, "code");
      && (r.Success? <==> !Truthy(error) && Truthy(code))
      && (r.Success? ==> r.code == code.value && r.code != "")
      && (Truthy(error) ==> r == Failure(error.value))
      && (r.Failure? && !Truthy(error) ==> r.error == NoCodeMessage)
  {
    var code := SearchParams.Get(query, "code");
    var error := SearchParams.Get(query, "error");
    if Truthy(error) then Failure(error.value)
    else if Truthy(code) then Success(code.value)
    else Failure(NoCodeMessage)
  }

  /** The three responses of an authorization round trip. */
  lemma ParseCallbackExamples(e: string, c: string)
    requires e != "" && c != ""
    ensures ParseCallback([("error", e), ("code", c)]) == Failure(e)
    ensures ParseCallback([("code", c), ("error", e)]) == Failure(e)
    ensures ParseCallback([("code", c)]) == Success(c)
    ensures ParseCallback([("error", ""), ("code", c)]) == Success(c)
    ensures ParseCallback([]) == Failure(NoCodeMessage)
  {
    var q1: SearchParams.Params := [("code", c), ("error", e)];
    assert q1[1..][0] == ("error", e);
    assert SearchParams.Get(q1, "error") == SearchParams.Get(q1[1..], "error");
    var q2: SearchParams.Params := [("error", ""), ("code", c)];
    assert q2[1..][0] == ("code", c);
    assert SearchParams.Get(q2, "code") == SearchParams.Get(q2[1..], "code");
  }

  /** Storage reports a session when either key holds a non-empty value. */
  predicate SessionPresent(items: map<string, string>)
    ensures SessionPresent(items) <==>
      (AuthCodeKey in items && items[AuthCodeKey] != "") || (UserKey in items && items[UserKey] != "")
  {
    Truthy(Get(items, AuthCodeKey)) || Truthy(Get(items, UserKey))
  }

  /** The user record stored under `cognito_user`, if the key holds text that reads as one. */
  function StoredUser(items: map<string, string>): (u: Option<User>)
    ensures u.Some? ==> UserKey in items && items[UserKey] != "" && DecodeUser(items[UserKey]) == u
    ensures UserKey !in items || items[UserKey] == "" ==> u == None
  {
    if Truthy(Get(items, UserKey)) then DecodeUser(items[UserKey]) else None
  }

  /** The placeholder record made for an authorization code. */
  function MockUser(code: string): (u: User)
    ensures u.authCode == code
  {
    User(Attributes("User", "user@example.com"), "user", code)
  }

  /** A readable user record is always a session. */
  lemma StoredUserImpliesSession(items: map<string, string>)
    ensures StoredUser(items).Some? ==> SessionPresent(items)
  {
  }

  /** Writing the record for `code` and reading it back gives that record; no other key
      changes. */
  lemma MockUserReadsBack(items: map<string, string>, code: string)
    ensures var m := items[UserKey := EncodeUser(MockUser(code))];
      StoredUser(m) == Some(MockUser(code)) && SessionPresent(m)
      && forall k :: k != UserKey ==> Get(m, k) == Get(items, k)
  {
    DecodeEncodeUser(MockUser(code));
  }

  /** After both keys are removed there is no session and no user; no other key changes. */
  lemma SignedOutSessionIsEmpty(items: map<string, string>)
    ensures var m := items - {AuthCodeKey, UserKey};
      !SessionPresent(m) && StoredUser(m) == None
      && forall k :: k != AuthCodeKey && k != UserKey ==> Get(m, k) == Get(items, k)
  {
  }

  // ---------------------------------------------------------------------------
  // The operations on `localStorage`

  /** `handleCognitoCallback`: reads the response and, on success, records the code. */
  method HandleCallback(store: LocalStorage, query: SearchParams.Params) returns (r: Completion<CallbackResult>)
    modifies store`items
    ensures var p := ParseCallback(query);
      if p.Success? && store.blocked then
        r == Threw(SecurityError) && store.items == old(store.items)
      else
        && r == Returned(p)
        && store.items == if p.Success? then old(store.items)[AuthCodeKey := p.code] else old(store.items)
  {
    var code := SearchParams.Get(query, "code");
    var error := SearchParams.Get(query, "error");
    if Truthy(error) {
      return Returned(Failure(error.value));
    }
    if Truthy(code) {
      var written := store.SetItem(AuthCodeKey, code.value);
      if written.Threw? {
        return Threw(written.message);
      }
      return Returned(Success(code.value));
    }
    return Returned(Failure(NoCodeMessage));
  }

  /** `isAuthenticated`: either key holds a non-empty value. */
  method IsAuthenticated(store: LocalStorage) returns (r: Completion<bool>)
    ensures r == if store.blocked then Threw(SecurityError) else Returned(SessionPresent(store.items))
  {
    var code := store.GetItem(AuthCodeKey);
    if code.Threw? {
      return Threw(code.message);
    }
    if Truthy(code.value) {
      return Returned(true);
    }
    var user := store.GetItem(UserKey);
    match user
    case Threw(thrown) => r := Threw(thrown);
    case Returned(value) => r := Returned(Truthy(value));
  }

  /** `getCurrentUser`: the stored record, or `None` when the key is absent or empty or its
      text does not parse; a parse failure is caught, a storage failure is not. */
  method GetCurrentUser(store: LocalStorage) returns (r: Completion<Option<User>>)
    ensures r == if store.blocked then Threw(SecurityError) else Returned(StoredUser(store.items))
  {
    var data := store.GetItem(UserKey);
    if data.Threw? {
      return Threw(data.message);
    }
    if Truthy(data.value) {
      return Returned(DecodeUser(data.value.value));
    }
    r := Returned(None);
  }

  /** `createMockUser`: stores the placeholder record for `code` under `cognito_user`. */
  method CreateMockUser(store: LocalStorage, code: string) returns (r: Completion<User>)
    modifies store`items
    ensures r == if store.blocked then Threw(SecurityError) else Returned(MockUser(code))
    ensures store.items == if store.blocked then old(store.items)
                           else old(store.items)[UserKey := EncodeUser(MockUser(code))]
  {
    var user := MockUser(code);
    var written := store.SetItem(UserKey, EncodeUser(user));
    if written.Threw? {
      return Threw(written.message);
    }
    r := Returned(user);
  }

  /** `signOut`: removes both session keys and gives the hosted logout URL to navigate to. */
  method SignOut(store: LocalStorage, config: CognitoConfig.Config, uriEncode: string -> string)
    returns (r: Completion<string>)
    modifies store`items
    ensures r == if store.blocked then Threw(SecurityError) else Returned(CognitoConfig.LogoutUrl(config, uriEncode))
    ensures store.items == if store.blocked then old(store.items) else old(store.items) - {AuthCodeKey, UserKey}
  {
    var removed := store.RemoveItem(AuthCodeKey);
    if removed.Threw? {
      return Threw(removed.message);
    }
    removed := store.RemoveItem(UserKey);
    match removed
    case Threw(thrown) => r := Threw(thrown);
    case Returned(_) => r := Returned(CognitoConfig.LogoutUrl(config, uriEncode));
  }
}
