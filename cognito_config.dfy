/** The configuration half of `client/src/config/cognito.ts`: the identity-provider
    settings resolved from the build environment, and the hosted login and logout URLs
    built from them. `process.env` is an input map; `URLSearchParams` value encoding and
    `encodeURIComponent` are function parameters. */
module CognitoConfig {
  import opened Base
  import opened Strings
  import SearchParams

  /** The build environment: variable name to value; an absent name is `undefined`. */
  type Env = map<string, string>

  const UserPoolIdVar := "REACT_APP_COGNITO_USER_POOL_ID"
  const ClientIdVar := "REACT_APP_COGNITO_CLIENT_ID"
  const RegionVar := "REACT_APP_COGNITO_REGION"
  const DomainVar := "REACT_APP_COGNITO_DOMAIN"
  const RedirectSignInVar := "REACT_APP_COGNITO_REDIRECT_SIGNIN"
  const RedirectSignOutVar := "REACT_APP_COGNITO_REDIRECT_SIGNOUT"
  const ScopesVar := "REACT_APP_COGNITO_SCOPES"
  const ResponseTypeVar := "REACT_APP_COGNITO_RESPONSE_TYPE"
  const HostedUIUrlVar := "REACT_APP_COGNITO_HOSTED_UI_URL"

  const DefaultRedirectSignIn := "http://localhost:3000/dashboard"
  const DefaultRedirectSignOut := "http://localhost:3000/"
  const DefaultResponseType := "code"

  /** The scope string used when none is configured. It is a function rather than a
      `const` so that the verifier does not unfold the tokeniser over the literal
      wherever the default is mentioned. */
  function DefaultScopes(): string {
    "email openid"
  }

  datatype Config = Config(
    userPoolId: string,
    clientId: string,
    region: string,
    domainHost: string,
    redirectSignIn: string,
    redirectSignOut: string,
    scope: seq<string>,
    responseType: string,
    hostedUIUrl: string)

  /** `env[name] || fallback`: an unset or empty variable takes the fallback. */
  function EnvOr(env: Env, name: string, fallback: string): string {
    if Truthy(Get(env, name)) then env[name] else fallback
  }

  // ---------------------------------------------------------------------------
  // Domain host normalisation: `.replace(/^https?:\/\//, '').replace(/\/$/, '')`

  /** Length of the leading `https://` or `http://` of `s`, or 0 when it has neither. */
  function SchemeLength(s: string): (n: nat)
    ensures n <= |s|
    ensures n == 8 <==> "https://" <= s
    ensures n == 7 <==> "http://" <= s
    ensures n == 0 <==> !("https://" <= s) && !("http://" <= s)
  {
    if "https://" <= s then
      assert s[4] == 's';
      8
    else if "http://" <= s then 7 else 0
  }

  /** Removes at most one leading scheme and then at most one trailing slash; the
      characters in between are kept as they are. */
  function NormalizeDomain(raw: string): (host: string)
    ensures var rest := raw[SchemeLength(raw)..];
      host <= rest && (host == rest || host + "/" == rest)
    ensures var rest := raw[SchemeLength(raw)..];
      host == rest <==> rest == [] || rest[|rest| - 1] != '/'
  {
    var rest := raw[SchemeLength(raw)..];
    if rest != [] && rest[|rest| - 1] == '/' then rest[..|rest| - 1] else rest
  }

  /** A scheme prefix the normaliser recognises: none, `http://` or `https://`. */
  predicate IsSchemePrefix(p: string) {
    p == "" || p == "http://" || p == "https://"
  }

  lemma SchemeLengthOfPrefixed(p: string, h: string)
    requires IsSchemePrefix(p) && (p == "" ==> SchemeLength(h) == 0)
    ensures SchemeLength(p + h) == |p|
  {
    var s := p + h;
    if p == "http://" {
      assert s[4] == ':';
      assert !("https://" <= s);
      assert "http://" <= s;
    } else if p == "https://" {
      assert "https://" <= s;
    } else {
      assert s == h;
    }
  }

  /** Decorating a host with a recognised scheme and/or one trailing slash, then
      normalising, gives the host back. */
  lemma NormalizeDomainUndecorates(p: string, h: string, slash: bool)
    requires IsSchemePrefix(p) && (p == "" ==> SchemeLength(h + (if slash then "/" else "")) == 0)
    requires !slash ==> h == [] || h[|h| - 1] != '/'
    ensures NormalizeDomain(p + h + (if slash then "/" else "")) == h
  {
    var s := p + h + (if slash then "/" else "");
    SchemeLengthOfPrefixed(p, h + (if slash then "/" else ""));
    assert s == p + (h + (if slash then "/" else ""));
    assert s[|p|..] == h + (if slash then "/" else "");
  }

  /** A host that has no scheme and no trailing slash is already normal. */
  lemma NormalizeDomainKeepsCleanHost(h: string)
    requires SchemeLength(h) == 0 && (h == [] || h[|h| - 1] != '/')
    ensures NormalizeDomain(h) == h
  {
    assert h + "" == h;
    NormalizeDomainUndecorates("", h, false);
    assert "" + h + "" == h;
  }

  // ---------------------------------------------------------------------------
  // `cognitoConfig`

  /** The settings as resolved once from the environment, with their defaults. */
  function FromEnv(env: Env): (c: Config)
    ensures Truthy(Get(env, UserPoolIdVar)) ==> c.userPoolId == env[UserPoolIdVar]
    ensures !Truthy(Get(env, UserPoolIdVar)) ==> c.userPoolId == ""
    ensures Truthy(Get(env, ClientIdVar)) ==> c.clientId == env[ClientIdVar]
    ensures !Truthy(Get(env, ClientIdVar)) ==> c.clientId == ""
    ensures Truthy(Get(env, RegionVar)) ==> c.region == env[RegionVar]
    ensures !Truthy(Get(env, RegionVar)) ==> c.region == ""
    ensures Truthy(Get(env, DomainVar)) ==> c.domainHost == NormalizeDomain(env[DomainVar])
    ensures !Truthy(Get(env, DomainVar)) ==> c.domainHost == ""
    ensures Truthy(Get(env, RedirectSignInVar)) ==> c.redirectSignIn == env[RedirectSignInVar]
    ensures !Truthy(Get(env, RedirectSignInVar)) ==> c.redirectSignIn == DefaultRedirectSignIn
    ensures Truthy(Get(env, RedirectSignOutVar)) ==> c.redirectSignOut == env[RedirectSignOutVar]
    ensures !Truthy(Get(env, RedirectSignOutVar)) ==> c.redirectSignOut == DefaultRedirectSignOut
    ensures Truthy(Get(env, ScopesVar)) ==> c.scope == Tokenize(env[ScopesVar])
    ensures !Truthy(Get(env, ScopesVar)) ==> c.scope == ["email", "openid"]
    ensures WellFormedTokens(c.scope)
    ensures Truthy(Get(env, ResponseTypeVar)) ==> c.responseType == env[ResponseTypeVar]
    ensures !Truthy(Get(env, ResponseTypeVar)) ==> c.responseType == DefaultResponseType
    ensures Truthy(Get(env, HostedUIUrlVar)) ==> c.hostedUIUrl == env[HostedUIUrlVar]
    ensures !Truthy(Get(env, HostedUIUrlVar)) ==> c.hostedUIUrl == ""
    ensures c.redirectSignIn != "" && c.redirectSignOut != "" && c.responseType != ""
  {
    var scopeText := EnvOr(env, ScopesVar, DefaultScopes());
    DefaultScopesWhenUnset(env);
    Config(
      EnvOr(env, UserPoolIdVar, ""),
      EnvOr(env, ClientIdVar, ""),
      EnvOr(env, RegionVar, ""),
      NormalizeDomain(EnvOr(env, DomainVar, "")),
      EnvOr(env, RedirectSignInVar, DefaultRedirectSignIn),
      EnvOr(env, RedirectSignOutVar, DefaultRedirectSignOut),
      Tokenize(scopeText),
      EnvOr(env, ResponseTypeVar, DefaultResponseType),
      EnvOr(env, HostedUIUrlVar, ""))
  }

  /** The default scope string yields the two default scopes. The string comes in as a
      parameter pinned by `requires`, which keeps the tokeniser from being evaluated
      character by character on the literal. */
  lemma DefaultScopesTokens(text: string)
    requires text == DefaultScopes()
    ensures Tokenize(text) == ["email", "openid"]
  {
    assert text == "email" + " " + "openid";
    TokenizeTwoWords("email", "openid");
  }

  lemma DefaultScopesWhenUnset(env: Env)
    ensures !Truthy(Get(env, ScopesVar)) ==>
      Tokenize(EnvOr(env, ScopesVar, DefaultScopes())) == ["email", "openid"]
  {
    if !Truthy(Get(env, ScopesVar)) {
      DefaultScopesTokens(EnvOr(env, ScopesVar, DefaultScopes()));
    }
  }

  // ---------------------------------------------------------------------------
  // Hosted login and logout URLs

  /** The unused `resolveHostedBaseUrl`: the configured host, else a host derived from
      the user pool id and region, else the empty string. */
  function ResolveHostedBaseUrl(c: Config): (base: string)
    ensures c.domainHost != "" ==> base == "https://" + c.domainHost
    ensures c.domainHost == "" && c.userPoolId != "" && c.region != "" ==>
      base == "https://" + c.userPoolId + ".auth." + c.region + ".amazoncognito.com"
    ensures base == "" <==> c.domainHost == "" && (c.userPoolId == "" || c.region == "")
  {
    if c.domainHost != "" then "https://" + c.domainHost
    else if c.userPoolId != "" && c.region != "" then
      "https://" + c.userPoolId + ".auth." + c.region + ".amazoncognito.com"
    else ""
  }

  /** The authorization request parameters, in the order the URL carries them. */
  function LoginParams(c: Config): SearchParams.Params {
    [("client_id", c.clientId),
     ("response_type", c.responseType),
     ("scope", Join(c.scope, " ")),
     ("redirect_uri", c.redirectSignIn)]
  }

  /** `getCognitoHostedUIUrl` as written: an override wins verbatim; otherwise the
      hosted login page of the configured host, with no check that the host is set. */
  function HostedUIUrl(c: Config, formEncode: string -> string): (url: string)
    ensures c.hostedUIUrl != "" ==> url == c.hostedUIUrl
    ensures c.hostedUIUrl == "" ==>
      url == "https://" + c.domainHost + "/login?" + SearchParams.Serialize(LoginParams(c), formEncode)
    ensures url != ""
  {
    if c.hostedUIUrl != "" then c.hostedUIUrl
    else "https://" + c.domainHost + "/login?" + SearchParams.Serialize(LoginParams(c), formEncode)
  }

  /** An override makes every other setting irrelevant to the login URL. */
  lemma HostedUIUrlOverrideWins(c1: Config, c2: Config, e1: string -> string, e2: string -> string)
    requires c1.hostedUIUrl == c2.hostedUIUrl != ""
    ensures HostedUIUrl(c1, e1) == HostedUIUrl(c2, e2)
  {
  }

  /** The identity provider, reading the `scope` parameter as a space-delimited list,
      recovers exactly the configured scopes, in order. */
  lemma ScopeParameterRoundTrip(env: Env)
    ensures var c := FromEnv(env);
      SearchParams.Get(LoginParams(c), "scope") == Some(Join(c.scope, " "))
      && Tokenize(Join(c.scope, " ")) == c.scope
  {
    var c := FromEnv(env);
    var ps := LoginParams(c);
    assert ps[1..][1..][0] == ("scope", Join(c.scope, " "));
    assert SearchParams.Get(ps[1..], "scope") == SearchParams.Get(ps[1..][1..], "scope");
    TokenizeJoin(c.scope);
  }

  /** The sign-out target: the hosted logout page with the client id as it is and the
      sign-out redirect through `encodeURIComponent`. */
  function LogoutUrl(c: Config, uriEncode: string -> string): (url: string)
    ensures "https://" + c.domainHost + "/logout?client_id=" <= url
    ensures url[|"https://" + c.domainHost + "/logout?client_id="|..]
      == c.clientId + "&logout_uri=" + uriEncode(c.redirectSignOut)
  {
    var head := "https://" + c.domainHost + "/logout?client_id=";
    var url := head + c.clientId + "&logout_uri=" + uriEncode(c.redirectSignOut);
    assert url == head + (c.clientId + "&logout_uri=" + uriEncode(c.redirectSignOut));
    url
  }

  // ---------------------------------------------------------------------------
  // The login click guard, and the empty-host case

  /** The login click handlers: navigate to the URL only when it is non-empty. */
  function LoginClickTarget(url: string): (target: Option<string>)
    ensures target.None? <==> url == ""
    ensures target.Some? ==> target.value == url
  {
    if url != "" then Some(url) else None
  }

  /** As written, an environment with no domain host and no override still produces a
      navigation, to a login URL with an empty host: the click guard never fires. */
  lemma UnconfiguredLoginStillNavigates(env: Env, formEncode: string -> string)
    requires !Truthy(Get(env, DomainVar)) && !Truthy(Get(env, HostedUIUrlVar))
    ensures var url := HostedUIUrl(FromEnv(env), formEncode);
      LoginClickTarget(url) == Some(url) && "https:///login?" <= url
  {
    var c := FromEnv(env);
    assert EnvOr(env, DomainVar, "") == "";
    assert c.domainHost == "" && c.hostedUIUrl == "";
    HostlessLoginUrl(c, formEncode);
  }

  lemma HostlessLoginUrl(c: Config, formEncode: string -> string)
    requires c.domainHost == "" && c.hostedUIUrl == ""
    ensures "https:///login?" <= HostedUIUrl(c, formEncode)
  {
    var query := SearchParams.Serialize(LoginParams(c), formEncode);
    assert "https://" + c.domainHost + "/login?" == "https:///login?";
    assert HostedUIUrl(c, formEncode) == "https:///login?" + query;
  }

  /** The login URL with the empty-host guard the click handlers rely on: the base URL
      comes from `resolveHostedBaseUrl`, and an unresolvable base gives the empty string. */
  function GuardedHostedUIUrl(c: Config, formEncode: string -> string): (url: string)
    ensures c.hostedUIUrl != "" ==> url == c.hostedUIUrl
    ensures url == "" <==> c.hostedUIUrl == "" && ResolveHostedBaseUrl(c) == ""
    ensures c.domainHost != "" ==> url == HostedUIUrl(c, formEncode)
  {
    if c.hostedUIUrl != "" then c.hostedUIUrl
    else
      var base := ResolveHostedBaseUrl(c);
      if base == "" then ""
      else base + "/login?" + SearchParams.Serialize(LoginParams(c), formEncode)
  }

  /** With the guard, an environment with no domain host, no user pool id and no
      override suppresses the login navigation. */
  lemma GuardedUnconfiguredLoginSuppressed(env: Env, formEncode: string -> string)
    requires !Truthy(Get(env, DomainVar)) && !Truthy(Get(env, HostedUIUrlVar))
    requires !Truthy(Get(env, UserPoolIdVar))
    ensures LoginClickTarget(GuardedHostedUIUrl(FromEnv(env), formEncode)).None?
  {
    var c := FromEnv(env);
    assert EnvOr(env, DomainVar, "") == "";
    assert c.domainHost == "" && c.userPoolId == "" && c.hostedUIUrl == "";
  }
}
