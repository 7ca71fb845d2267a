/** `client/src/pages/Callback.tsx`: the page the hosted sign-in redirects back to. On
    mount it reads the authorization response, records the session, refreshes the auth
    context and schedules a move to the dashboard; a failure, or a throw anywhere in
    the process, schedules a move home instead. The delays are not modelled: a
    scheduled navigation is recorded as the pending redirect target. */
module CallbackPage {
  import opened Base
  import opened JsonText
  import opened Storage
  import SearchParams
  import CognitoSession
  import AuthContext

  datatype Status = Processing | Succeeded | Errored

  const ProcessingMessage := "Processing authentication..."
  const SuccessMessage := "Authentication successful! Redirecting to dashboard..."
  const FailurePrefix := "Authentication failed: "
  const UnexpectedMessage := "An unexpected error occurred during authentication."
  const HomePath := "/"
  const DashboardPath := "/dashboard"

  /** The storage a successful callback leaves behind, with the code written first and
      the placeholder record second. */
  function SessionAfterCallback(items: map<string, string>, code: string): map<string, string> {
    items[CognitoSession.AuthCodeKey := code][CognitoSession.UserKey := EncodeUser(CognitoSession.MockUser(code))]
  }

  /** After a successful callback storage reports a session, the record it holds carries
      the authorization code, and the auth context settles on that record; every other
      key is as before. */
  lemma CallbackSignsIn(items: map<string, string>, code: string)
    requires code != ""
    ensures var m := SessionAfterCallback(items, code);
      && CognitoSession.SessionPresent(m)
      && CognitoSession.StoredUser(m) == Some(CognitoSession.MockUser(code))
      && CognitoSession.StoredUser(m).value.authCode == code
      && AuthContext.ContextUser(m, false) == Some(CognitoSession.MockUser(code))
      && forall k :: k != CognitoSession.AuthCodeKey && k != CognitoSession.UserKey ==> Get(m, k) == Get(items, k)
  {
    CognitoSession.MockUserReadsBack(items[CognitoSession.AuthCodeKey := code], code);
  }

  class Page {
    var status: Status
    var message: string
    var redirect: Option<string>
    const auth: AuthContext.AuthProvider

    /** The state at mount: processing, with no navigation scheduled. */
    constructor (auth: AuthContext.AuthProvider)
      ensures status == Processing && message == ProcessingMessage && redirect == None
      ensures this.auth == auth
    {
      status := Processing;
      message := ProcessingMessage;
      redirect := None;
      this.auth := auth;
    }

    /** The `catch` branch of `processCallback`. */
    method Fail()
      modifies this`status, this`message, this`redirect
      ensures status == Errored && message == UnexpectedMessage && redirect == Some(HomePath)
    {
      status := Errored;
      message := UnexpectedMessage;
      redirect := Some(HomePath);
    }

    /** The `try` block of `processCallback`: an error response is shown with its reason;
        a code is recorded with its placeholder record, the context refreshed and the
        dashboard scheduled. A storage failure escapes. */
    method Attempt(query: SearchParams.Params) returns (r: Completion<()>)
      modifies this`status, this`message, this`redirect, auth`user, auth.store`items
      ensures match CognitoSession.ParseCallback(query)
        case Failure(error) =>
          && r == Returned(())
          && status == Errored && message == FailurePrefix + error && redirect == Some(HomePath)
          && auth.store.items == old(auth.store.items) && auth.user == old(auth.user)
        case Success(code) =>
          if auth.store.blocked then
            r.Threw? && auth.store.items == old(auth.store.items) && auth.user == old(auth.user)
          else
            && r == Returned(())
            && status == Succeeded && message == SuccessMessage && redirect == Some(DashboardPath)
            && auth.store.items == SessionAfterCallback(old(auth.store.items), code)
            && auth.user == Some(CognitoSession.MockUser(code))
    {
      var handled := CognitoSession.HandleCallback(auth.store, query);
      match handled {
        case Threw(thrown) =>
          r := Threw(thrown);
        case Returned(Failure(error)) =>
          status := Errored;
          message := FailurePrefix + error;
          redirect := Some(HomePath);
          r := Returned(());
        case Returned(Success(code)) =>
          status := Succeeded;
          message := SuccessMessage;
          var created := CognitoSession.CreateMockUser(auth.store, code);
          match created {
            case Threw(thrown) =>
              r := Threw(thrown);
            case Returned(_) =>
              auth.RefreshUser();
              CallbackSignsIn(old(auth.store.items), code);
              redirect := Some(DashboardPath);
              r := Returned(());
          }
      }
    }

    /** `processCallback`: the `try` block, with any throw caught as the generic error. */
    method ProcessCallback(query: SearchParams.Params)
      modifies this`status, this`message, this`redirect, auth`user, auth.store`items
      ensures match CognitoSession.ParseCallback(query)
        case Failure(error) =>
          && status == Errored && message == FailurePrefix + error && redirect == Some(HomePath)
          && auth.store.items == old(auth.store.items) && auth.user == old(auth.user)
        case Success(code) =>
          if auth.store.blocked then
            && status == Errored && message == UnexpectedMessage && redirect == Some(HomePath)
            && auth.store.items == old(auth.store.items) && auth.user == old(auth.user)
          else
            && status == Succeeded && message == SuccessMessage && redirect == Some(DashboardPath)
            && auth.store.items == SessionAfterCallback(old(auth.store.items), code)
            && auth.user == Some(CognitoSession.MockUser(code))
    {
      var outcome := Attempt(query);
      if outcome.Threw? {
        Fail();
      }
    }
  }

  /** Rendering the page: `useAuth()` throws outside an `AuthProvider`, and then no page
      mounts and no callback is processed; inside one the page starts processing. */
  method Mount(context: AuthContext.AuthProvider?) returns (r: Completion<Page>)
    ensures r.Threw? <==> context == null
    ensures r.Threw? ==> r.message == AuthContext.OutsideProviderMessage
    ensures r.Returned? ==> fresh(r.value) && r.value.auth == context
    ensures r.Returned? ==>
      r.value.status == Processing && r.value.message == ProcessingMessage && r.value.redirect == None
  {
    var provided := AuthContext.UseAuth(context);
    match provided {
      case Threw(thrown) =>
        r := Threw(thrown);
      case Returned(auth) =>
        var page := new Page(auth);
        r := Returned(page);
    }
  }
}
