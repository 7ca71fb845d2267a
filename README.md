# Lamhey client sign-in flow, in Dafny

This project models the client-side sign-in session of the Lamhey web client. The client uses the hosted login page of an Amazon Cognito user pool. The model covers four parts:

- **Configuration and URLs** (`client/src/config/cognito.ts`). The identity-provider settings are read from the build environment. The domain host is normalised and the scope string is tokenised. Two URLs are built from the result:
  - the hosted login URL, which is an OAuth 2.0 authorization request as in section 4.1.1 of RFC 6749, with a space-delimited `scope` as in section 3.3;
  - the hosted logout URL.
- **The session in `localStorage`** (`cognito.ts`). Storage has two fixed keys, `cognito_auth_code` and `cognito_user`. The model covers:
  - reading the authorization response: a `code` as in section 4.1.2 of RFC 6749, or an `error` as in section 4.1.2.1;
  - `isAuthenticated`, `getCurrentUser`, `createMockUser` and `signOut`.
- **The auth context** (`client/src/contexts/AuthContext.tsx`). It holds a `user` / `isLoading` pair. The pair is set from storage when the provider mounts, recomputed by `refreshUser` and cleared by `signOut`. The exposed `isAuthenticated` is derived from `user`.
- **The two pages that write the session.**
  - `client/src/pages/Auth.tsx`: the local sign-in / sign-up form, its checks, its write under the key `user`, and how its messages are styled.
  - `client/src/pages/Callback.tsx`: the callback page. It turns the authorization response into a status, a message, storage writes, a context refresh and a pending redirect.

The modules are:

| file | module | models |
|---|---|---|
| `base.dfy` | `Base` | `Option` and `Completion` (a value, or a thrown error), and JavaScript truthiness of an optional string |
| `strings.dfy` | `Strings` | `includes`, `split('@')[0]`, the scope split on `[ ,]+` with empty tokens dropped, and `join(' ')` |
| `json_text.dfy` | `JsonText` | the stored records and the JSON text they are stored as |
| `storage.dfy` | `Storage` | `localStorage` as a class over a string map, which may throw on every access |
| `search_params.dfy` | `SearchParams` | `URLSearchParams` as an ordered list of pairs |
| `cognito_config.dfy` | `CognitoConfig` | `cognitoConfig`, `resolveHostedBaseUrl`, `getCognitoHostedUIUrl` and the logout URL |
| `cognito_session.dfy` | `CognitoSession` | `handleCognitoCallback`, `isAuthenticated`, `getCurrentUser`, `createMockUser` and `signOut` |
| `auth_context.dfy` | `AuthContext` | `AuthProvider` and `useAuth` |
| `auth_page.dfy` | `AuthPage` | the `Auth` page |
| `callback_page.dfy` | `CallbackPage` | the `Callback` page |

Several modelling choices apply throughout:

- **Storage throws.** Storage access is modelled as something that can throw, through the `blocked` flag of `Storage.LocalStorage`. A blocked store throws on every `getItem`, `setItem` and `removeItem`. This keeps the code's `try`/`catch`/`finally` paths reachable:
  - the mount-time check and `refreshUser` catch the throw and fall back to "no user";
  - the callback page catches it and shows its generic error;
  - the form's timer callback does not catch it.
- **State is data.** React state is modelled as class fields. `process.env` is a map. The query string is a list of already-decoded name/value pairs.
- **Opaque encoders.** The form encoding of `URLSearchParams` and `encodeURIComponent` are function parameters.
- **Navigation.** A scheduled `window.location.href` navigation is recorded as a pending redirect target.
- **Timer snapshot.** The form's timer callback sees the tab and the form as they were at submit time. `AuthPage.Page.HandleSubmit` therefore returns a snapshot (`SubmitJob`), and `AuthPage.Page.RunSubmitJob` runs it later.

Points to note about the code, which the model keeps as written:

- The login URL has no empty-host guard (see Findings).
- Scopes are split on spaces and commas only, not on tabs or other whitespace.
- The failure message for a response with neither `error` nor `code` is `No authorization code received`.
- Domain normalisation removes one scheme and one trailing slash, and no more. For example, `https://https://x` normalises to `https://x`, not to a bare host.
- `App.tsx` renders the callback and dashboard routes with no `AuthProvider` around them. The entry file that may add one is not part of this model, so `CallbackPage.Mount` covers both cases.

## Model

| member | source | states |
|---|---|---|
| CognitoConfig.FromEnv | client/src/config/cognito.ts:6-19 | The configuration read from the environment, both cases for every field. A set, non-empty variable gives its value: verbatim for the pool id, client id, region, redirects, response type and override; normalised for the domain host; tokenised for the scopes. An unset or empty variable gives the default: `''` for the pool id, client id, region, domain host and override; `http://localhost:3000/dashboard` and `http://localhost:3000/` for the redirects; `code` for the response type; `["email","openid"]` for the scopes. The scopes are always well formed, and the redirects and the response type are never empty. |
| CognitoConfig.SchemeLength | client/src/config/cognito.ts:12 | The leading `https://` or `http://` is measured as 8, 7 or 0, each case if and only if that prefix is present. |
| CognitoConfig.NormalizeDomain | client/src/config/cognito.ts:12 | Strips at most one scheme, then at most one trailing `/`. The result is the rest of the input, or the rest minus its final `/`. The result equals the rest exactly when the rest has no trailing `/`. |
| CognitoConfig.NormalizeDomainUndecorates | client/src/config/cognito.ts:12 | A host with an added `http://` or `https://` and/or one trailing `/` normalises back to that host. |
| CognitoConfig.NormalizeDomainKeepsCleanHost | client/src/config/cognito.ts:12 | A host without a scheme or a trailing `/` is left unchanged. |
| Strings.Tokenize | client/src/config/cognito.ts:15 | The split on runs of spaces and commas, with empty tokens dropped. Every token is non-empty and has no space or comma. |
| Strings.TokenizeKeepsLetters | client/src/config/cognito.ts:15 | The tokens, concatenated in order, are exactly the input's non-separator characters. Nothing is lost or reordered. |
| Strings.TokenizeAppend | client/src/config/cognito.ts:15 | Splitting at a separator gives the tokens of the left part followed by the tokens of the right part. |
| CognitoConfig.DefaultScopesTokens | client/src/config/cognito.ts:15 | The default scope string `email openid` gives `["email","openid"]`. |
| CognitoConfig.DefaultScopesWhenUnset | client/src/config/cognito.ts:15 | An unset or empty scopes variable gives `["email","openid"]`. |
| Strings.TokenizeJoin | client/src/config/cognito.ts:45 | Joining well-formed scopes with one space and splitting them again gives the same scopes back. |
| CognitoConfig.ResolveHostedBaseUrl | client/src/config/cognito.ts:21-31 | The configured host wins. Otherwise the host is derived from the pool id and the region. Otherwise the result is `''`. The result is empty if and only if neither source of a host is set. |
| CognitoConfig.HostedUIUrl | client/src/config/cognito.ts:34-49 | A non-empty override is returned verbatim. Otherwise the result is `https://` + host + `/login?` + the four parameters in order. It is never empty. |
| CognitoConfig.HostedUIUrlOverrideWins | client/src/config/cognito.ts:36-38 | With the same non-empty override, two configurations and encoders give the same login URL. |
| CognitoConfig.ScopeParameterRoundTrip | client/src/config/cognito.ts:42-47 | The `scope` parameter of the login request is the configured scopes joined by a space. Splitting that value gives the configured scopes back. |
| SearchParams.Pairs | client/src/config/cognito.ts:42-48 | One `name=value` entry per pair, in order, with the value through the form encoder. |
| SearchParams.Serialize | client/src/config/cognito.ts:42-48 | `params.toString()` is every pair as `name=` plus the encoded value, in order, joined by `&`. It is empty if and only if there are no pairs, and it starts with the first pair. |
| CognitoConfig.LogoutUrl | client/src/config/cognito.ts:109 | The logout URL is `https://{host}/logout?client_id=` followed by the raw client id, then `&logout_uri=`, then the encoded sign-out redirect. |
| CognitoConfig.LoginClickTarget | client/src/components/Navigation.tsx:12-18 | The login click navigates if and only if the URL is non-empty, and then to that URL. |
| CognitoConfig.UnconfiguredLoginStillNavigates | client/src/config/cognito.ts:40-48 | As written: with no domain and no override, the login click still navigates, to a URL that starts with `https:///login?`. |
| CognitoConfig.GuardedHostedUIUrl | client/src/config/cognito.ts:21-49 | Corrected: the result is empty if and only if there is no override and no resolvable base URL. Otherwise it agrees with the login URL as written whenever a domain host is set. |
| CognitoConfig.GuardedUnconfiguredLoginSuppressed | client/src/config/cognito.ts:21-31 | Corrected: with no domain, no pool id and no override, the login click does nothing. |
| SearchParams.Get | client/src/config/cognito.ts:53-55 | `get` returns none if and only if no pair has the name. Otherwise it returns the value of the first pair with that name. |
| CognitoSession.ParseCallback | client/src/config/cognito.ts:52-69 | A non-empty `error` wins over any `code`. Otherwise a non-empty `code` is a success carrying it. Otherwise the result is a failure with `No authorization code received`. Success holds if and only if there is no non-empty error and there is a non-empty code. |
| CognitoSession.ParseCallbackExamples | client/src/config/cognito.ts:57-68 | Error beats code in either order. An empty `error` counts as absent. An empty query is a failure. |
| CognitoSession.HandleCallback | client/src/config/cognito.ts:52-69 | Returns the parsed result. On success it sets exactly `cognito_auth_code` to the code. On failure it returns normally and storage is unchanged, even when storage is blocked. On success, a blocked store throws and is left unchanged. |
| CognitoSession.IsAuthenticated | client/src/config/cognito.ts:72-74 | True if and only if either session key holds a non-empty value. It throws only if storage does. |
| CognitoSession.GetCurrentUser | client/src/config/cognito.ts:77-88 | Returns the record stored under `cognito_user`. It returns none when the key is absent or empty or the text does not parse. A parse failure does not throw. |
| CognitoSession.SessionPresent | client/src/config/cognito.ts:72-74 | Storage reports a session if and only if one of the two session keys is present with a non-empty value. |
| CognitoSession.StoredUser | client/src/config/cognito.ts:77-88 | A record is read only from a present, non-empty `cognito_user` whose text parses to that record. An absent or empty key gives no record. |
| CognitoSession.StoredUserImpliesSession | client/src/config/cognito.ts:72-88 | Whenever `getCurrentUser` gives a record, `isAuthenticated` is true. |
| CognitoSession.MockUser | client/src/config/cognito.ts:92-99 | The placeholder record carries the given authorization code. |
| JsonText.DecodeEncodeUser | client/src/config/cognito.ts:100 | Parsing the stored text of a record gives the record back. |
| JsonText.EncodeUser | client/src/config/cognito.ts:100 | `JSON.stringify` of a user record is a non-empty text that opens an object. |
| JsonText.DecodeUser | client/src/config/cognito.ts:81 | Text reads as a record only if it opens with the record's first key, `{"attributes":{"name":`. Anything else, including text that is not an object, is unparseable. |
| JsonText.EncodeFormUser | client/src/pages/Auth.tsx:31 | `JSON.stringify({ email, name })` is a non-empty text that opens an object. |
| CognitoSession.MockUserReadsBack | client/src/config/cognito.ts:91-102 | After the mock record is written, reading it back gives that record and storage reports a session. No other key changes. |
| CognitoSession.CreateMockUser | client/src/config/cognito.ts:91-102 | Writes exactly `cognito_user`, with the record for the code, and returns that record. A blocked store throws and is left unchanged. |
| CognitoSession.SignedOutSessionIsEmpty | client/src/config/cognito.ts:106-107 | After both keys are removed there is no session and no stored user. No other key changes. |
| CognitoSession.SignOut | client/src/config/cognito.ts:105-111 | Removes exactly the two session keys and yields the logout URL. A blocked store throws and is left unchanged. |
| AuthContext.ContextUser | client/src/contexts/AuthContext.tsx:39-51 | The context's user is the stored record when storage reports a session, and none otherwise. A held user implies a readable store and a storage-level session. |
| AuthContext.AuthCodeAloneIsAnonymous | client/src/contexts/AuthContext.tsx:41-46 | With an authorization code and no readable user record (absent, empty or unparseable), storage reports a session but the context holds no user. |
| AuthContext.ReadSessionUser | client/src/contexts/AuthContext.tsx:40-46 | The shared `try` block gives the context user rule. It throws only if storage does. |
| AuthContext.AuthProvider.constructor | client/src/contexts/AuthContext.tsx:36-37 | The provider starts with no user and `isLoading` true. |
| AuthContext.AuthProvider.IsAuthenticated | client/src/contexts/AuthContext.tsx:86 | The exposed flag is `!!user`: it holds exactly when a user is held. |
| AuthContext.AuthProvider.CheckAuth | client/src/contexts/AuthContext.tsx:58-82 | `isLoading` ends false on every path. `user` follows the context user rule, and is none when storage throws. Afterwards the context is authenticated only if storage is readable and reports a session. |
| AuthContext.AuthProvider.RefreshUser | client/src/contexts/AuthContext.tsx:39-51 | `user` follows the same rule, with the same link between the context and storage. `isLoading` is not touched. |
| AuthContext.RefreshTwice | client/src/contexts/AuthContext.tsx:39-51 | Two refreshes on unchanged storage give the same user. `isLoading` is unchanged. |
| AuthContext.AuthProvider.SignOut | client/src/contexts/AuthContext.tsx:53-56 | The context is unauthenticated afterwards. Both session keys are removed and the logout URL is returned. If storage throws, the user is still cleared. |
| AuthContext.UseAuth | client/src/contexts/AuthContext.tsx:23-29 | Outside a provider it fails with the fixed message. Inside one it returns the provider. |
| AuthPage.FormData.With | client/src/pages/Auth.tsx:14-19 | The named field takes the new value and the other three keep theirs. |
| AuthPage.Page.HandleInputChange | client/src/pages/Auth.tsx:14-19 | Exactly the named field of the form changes. |
| AuthPage.Page.SelectTab | client/src/pages/Auth.tsx:82-88 | The tab buttons set login or sign-up. |
| AuthPage.Page.constructor | client/src/pages/Auth.tsx:4-12 | The page starts on login, with an empty form, no message and not loading. |
| AuthPage.Page.HandleSubmit | client/src/pages/Auth.tsx:21-27 | Submit sets loading, clears the message and snapshots the tab and the form for the timer. |
| AuthPage.Validate | client/src/pages/Auth.tsx:28-54 | Login is accepted if and only if email and password are non-empty, and the name is the email up to its first `@`. Sign-up is accepted if and only if all four fields are filled and the passwords match. The missing-field message takes precedence over the mismatch message. |
| Strings.BeforeFirst | client/src/pages/Auth.tsx:31 | `split('@')[0]` is a prefix of the input with no `@`. It is followed by `@` unless it is the whole input. |
| AuthPage.Page.RunSubmitJob | client/src/pages/Auth.tsx:27-56 | The timer callback sets the message of the checks and ends loading. An accepted submission writes only key `user` and sets the dashboard as the redirect. A write that throws leaves the page and storage as they were. |
| AuthPage.FormWriteLeavesSession | client/src/pages/Auth.tsx:31 | The form's write under `user` leaves both session keys, the storage-level session and the stored user unchanged. |
| Strings.Contains | client/src/pages/Auth.tsx:160 | `message.includes('successful')` holds if and only if the text occurs at some position of the message. |
| AuthPage.LoginMessageIsSuccess | client/src/pages/Auth.tsx:32 | The login message contains `successful`. |
| AuthPage.SignUpMessageIsSuccess | client/src/pages/Auth.tsx:44 | The sign-up message contains `successful`. |
| AuthPage.ErrorMessageIsNotSuccess | client/src/pages/Auth.tsx:37-52 | Neither error message contains `successful`. |
| AuthPage.SubmissionStyledBySuccess | client/src/pages/Auth.tsx:160 | A message is styled as a success if and only if its submission was accepted. |
| CallbackPage.Page.constructor | client/src/pages/Callback.tsx:7-8 | The page starts processing, with the processing message and no redirect. |
| CallbackPage.Mount | client/src/pages/Callback.tsx:6-9 | Rendering the page throws the `useAuth` error if and only if there is no provider. Otherwise a new page starts processing, bound to that provider. |
| CallbackPage.CallbackSignsIn | client/src/pages/Callback.tsx:14-24 | After a successful callback, storage reports a session and the stored record carries the code. The context settles on that record. No other key changes. |
| CallbackPage.Page.Attempt | client/src/pages/Callback.tsx:13-38 | Covers the `try` block. An error response sets `error`, `Authentication failed: ` + reason, and `/`, with storage unchanged. A code sets `success`, writes the code and the record, refreshes the context to that record and targets `/dashboard`. On success, a blocked store throws. |
| CallbackPage.Page.Fail | client/src/pages/Callback.tsx:39-46 | The `catch` sets `error`, the generic message and `/`. |
| CallbackPage.Page.ProcessCallback | client/src/pages/Callback.tsx:11-48 | The outcome for every response:<br>- failure: `error`, the reason, `/`, and nothing written;<br>- success: `success`, `/dashboard`, exactly the two session keys written, and the context user the record for the code;<br>- a storage throw: `error`, the generic message, `/`, and nothing written. |

## Left out

- `JSON.stringify` / `JSON.parse` are modelled only for the records this client writes, in the exact text `JSON.stringify` produces for them. Valid JSON of any other shape, spacing or key order reads as unparseable.
- Strings are sequences of Unicode scalar values. The lone surrogates a JavaScript string can hold, and how `JSON.stringify` escapes them, are not modelled.
- `URLSearchParams` value encoding and `encodeURIComponent` are opaque function parameters. Percent-decoding of the raw query string is not modelled: the query is a list of decoded pairs.
- `setTimeout` delays and the navigation itself are not modelled. A scheduled navigation is the recorded redirect target.
- React re-rendering and batching are not modelled, nor the effect re-running when `refreshUser` changes identity. The console output is not modelled either.
- `process.env` is an input map. The environment is read once.
- The distinct ways `localStorage` can throw (quota, access denied) are merged into one "every access throws" store. A store that accepts one write and refuses the next is therefore not modelled. In the code, `setItem` of `cognito_auth_code` (`cognito.ts:64`) can succeed and the write of `cognito_user` (`Callback.tsx:21`) can then throw, for example when the quota is exceeded. The page then shows the generic error with `cognito_auth_code` already set. In the model the callback page's error outcome always leaves storage unchanged, and the `Threw` branch after `CreateMockUser` in `CallbackPage.Page.Attempt` cannot be reached.
- CallbackPage.Page: the page's operations assume that mounting succeeded, that is, that `useAuth()` found a provider. `App.tsx:10-21` renders `<Callback />` with no `AuthProvider` around it, and the entry file that may add one is not part of this model. Outside a provider, `CallbackPage.Mount` throws and no callback is processed.
- AuthPage.Page.HandleInputChange: the input `name` is one of the four form fields. An input with another name would add a fifth key, which is not modelled.
- The page markup of `Auth.tsx` and `Callback.tsx` is not modelled, nor the Home, About, Dashboard, Navigation (beyond its login click guard) and UserProfile components, `App.tsx` or `start-https.js`.

## Findings

| source | as written | input that shows it | evidently intended | confidence | as-written member | corrected member |
|---|---|---|---|---|---|---|
| client/src/config/cognito.ts:34-49 | With no override, the login URL is always `https://` + host + `/login?...`. Nothing checks for an empty host, and `resolveHostedBaseUrl` (lines 21-31), which would give `''`, is never called. The click guard in `Navigation.tsx:15` therefore never fires. | An environment with neither `REACT_APP_COGNITO_DOMAIN` nor `REACT_APP_COGNITO_HOSTED_UI_URL` set. The login click navigates to `https:///login?client_id=...`. | Build the base from `resolveHostedBaseUrl` and return `''` when it is empty, so that the click guard suppresses the navigation. | medium, not executed | CognitoConfig.UnconfiguredLoginStillNavigates | CognitoConfig.GuardedHostedUIUrl |
