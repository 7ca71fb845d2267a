/** `client/src/pages/Auth.tsx`: the local sign-in / sign-up form. Its submit handler
    runs its checks in a timer callback that sees the tab and the form as they were at
    submit time; on success it writes a record under the storage key `user` and
    schedules a move to the dashboard. The timer delays are not modelled; a scheduled
    navigation is recorded as the pending redirect target. */
module AuthPage {
  import opened Base
  import opened Strings
  import opened Storage
  import JsonText
  import CognitoSession

  const FormUserKey := "user"
  const DashboardPath := "/dashboard"

  const LoginSucceeded := "Login successful! Redirecting..."
  const SignUpSucceeded := "Account created successfully! Redirecting..."
  const MissingFields := "Please fill in all fields"
  const PasswordMismatch := "Passwords do not match"

  /** The four inputs of the form, by their `name` attribute. */
  datatype Field = Email | Password | Name | ConfirmPassword

  datatype FormData = FormData(email: string, password: string, name: string, confirmPassword: string) {
    function Get(f: Field): string {
      match f
      case Email => email
      case Password => password
      case Name => name
      case ConfirmPassword => confirmPassword
    }

    /** `{ ...formData, [field]: value }`. */
    function With(f: Field, value: string): (r: FormData)
      ensures r.Get(f) == value
      ensures forall g :: g != f ==> r.Get(g) == Get(g)
    {
      match f
      case Email => this.(email := value)
      case Password => this.(password := value)
      case Name => this.(name := value)
      case ConfirmPassword => this.(confirmPassword := value)
    }
  }

  const EmptyForm := FormData("", "", "", "")

  predicate AllFilled(form: FormData) {
    form.email != "" && form.password != "" && form.name != "" && form.confirmPassword != ""
  }

  /** What a submission comes to: a record to store with its message, or a message alone. */
  datatype Submission = Accepted(email: string, name: string, message: string) | Rejected(message: string)

  /** The checks of the submit handler. Login needs an email and a password and names the
      user after the part of the email before the first `@`; sign-up needs all four
      fields, then matching passwords. */
  function Validate(isLogin: bool, form: FormData): (s: Submission)
    ensures isLogin ==> (s.Accepted? <==> form.email != "" && form.password != "")
    ensures !isLogin ==> (s.Accepted? <==> AllFilled(form) && form.password == form.confirmPassword)
    ensures s.Accepted? ==> s.email == form.email
    ensures s.Accepted? && isLogin ==>
      s.name <= form.email && '@' !in s.name && (|s.name| < |form.email| ==> form.email[|s.name|] == '@')
    ensures s.Accepted? && !isLogin ==> s.name == form.name
    ensures s.Accepted? ==> s.message == if isLogin then LoginSucceeded else SignUpSucceeded
    ensures s.Rejected? ==> s.message == if !isLogin && AllFilled(form) then PasswordMismatch else MissingFields
  {
    if isLogin then
      if form.email != "" && form.password != "" then
        Accepted(form.email, BeforeFirst(form.email, '@'), LoginSucceeded)
      else Rejected(MissingFields)
    else if AllFilled(form) then
      if form.password == form.confirmPassword then Accepted(form.email, form.name, SignUpSucceeded)
      else Rejected(PasswordMismatch)
    else Rejected(MissingFields)
  }

  /** How the page styles a message: as a success when it mentions "successful". */
  predicate IsSuccessMessage(m: string) {
    Contains(m, "successful")
  }

  lemma SuccessMessageAt(before: string, after: string)
    ensures IsSuccessMessage(before + "successful" + after)
  {
    var m := before + "successful" + after;
    assert m[|before|..] == "successful" + after;
  }

  lemma NoSuccessWithoutU(m: string)
    requires forall i :: 0 <= i < |m| ==> m[i] != 'u'
    ensures !IsSuccessMessage(m)
  {
    assert "successful"[1] == 'u';
    NotContainsMissingChar(m, "successful", 'u');
  }

  // The three lemmas below take the message as a parameter pinned to its constant by
  // `requires`: stated on the literal directly, the verifier unfolds `Contains` over
  // every character of it and runs out of resources.

  /** The login message contains `successful`. */
  lemma LoginMessageIsSuccess(m: string)
    requires m == LoginSucceeded
    ensures IsSuccessMessage(m)
  {
    assert m == "Login " + "successful" + "! Redirecting...";
    SuccessMessageAt("Login ", "! Redirecting...");
  }

  /** The sign-up message contains `successful` (as the start of `successfully`). */
  lemma SignUpMessageIsSuccess(m: string)
    requires m == SignUpSucceeded
    ensures IsSuccessMessage(m)
  {
    assert m == "Account created " + "successful" + "ly! Redirecting...";
    SuccessMessageAt("Account created ", "ly! Redirecting...");
  }

  /** Neither error message contains `successful`: neither has a `u`. */
  lemma ErrorMessageIsNotSuccess(m: string)
    requires m == MissingFields || m == PasswordMismatch
    ensures !IsSuccessMessage(m)
  {
    NoSuccessWithoutU(m);
  }

  /** A submission's message is styled as a success exactly when it was accepted. */
  lemma SubmissionStyledBySuccess(isLogin: bool, form: FormData)
    ensures IsSuccessMessage(Validate(isLogin, form).message) <==> Validate(isLogin, form).Accepted?
  {
    var s := Validate(isLogin, form);
    if s.Accepted? {
      if isLogin {
        LoginMessageIsSuccess(s.message);
      } else {
        SignUpMessageIsSuccess(s.message);
      }
    } else {
      ErrorMessageIsNotSuccess(s.message);
    }
  }

  /** The form's write under `user` leaves the session keys, and so the session as
      storage reports it, as they were. */
  lemma FormWriteLeavesSession(items: map<string, string>, text: string)
    ensures var m := items[FormUserKey := text];
      Get(m, CognitoSession.AuthCodeKey) == Get(items, CognitoSession.AuthCodeKey)
      && Get(m, CognitoSession.UserKey) == Get(items, CognitoSession.UserKey)
      && CognitoSession.SessionPresent(m) == CognitoSession.SessionPresent(items)
      && CognitoSession.StoredUser(m) == CognitoSession.StoredUser(items)
  {
  }

  /** The tab and form as the submit handler's timer callback sees them. */
  datatype SubmitJob = SubmitJob(isLogin: bool, form: FormData)

  class Page {
    var isLogin: bool
    var formData: FormData
    var loading: bool
    var message: string
    var redirect: Option<string>
    const store: LocalStorage

    constructor (store: LocalStorage)
      ensures isLogin && formData == EmptyForm && !loading && message == "" && redirect == None
      ensures this.store == store
    {
      isLogin := true;
      formData := EmptyForm;
      loading := false;
      message := "";
      redirect := None;
      this.store := store;
    }

    /** The Login / Sign Up tabs. */
    method SelectTab(login: bool)
      modifies this`isLogin
      ensures isLogin == login
    {
      isLogin := login;
    }

    /** `handleInputChange`: replaces the named field and keeps the other three. */
    method HandleInputChange(f: Field, value: string)
      modifies this`formData
      ensures formData == old(formData).With(f, value)
      ensures formData.Get(f) == value
      ensures forall g :: g != f ==> formData.Get(g) == old(formData).Get(g)
    {
      formData := formData.With(f, value);
    }

    /** `handleSubmit`: shows the page as busy with no message and schedules the checks. */
    method HandleSubmit() returns (job: SubmitJob)
      modifies this`loading, this`message
      ensures loading && message == ""
      ensures job == SubmitJob(isLogin, formData)
    {
      loading := true;
      message := "";
      job := SubmitJob(isLogin, formData);
    }

    /** The timer callback of `handleSubmit`. Every branch that completes ends with the
        page no longer busy; a storage write that throws escapes the callback and leaves
        the page as it was. */
    method RunSubmitJob(job: SubmitJob)
      modifies this`message, this`loading, this`redirect, store`items
      ensures var s := Validate(job.isLogin, job.form);
        if s.Accepted? && store.blocked then
          && message == old(message) && loading == old(loading) && redirect == old(redirect)
          && store.items == old(store.items)
        else
          && message == s.message && !loading
          && store.items == (if s.Accepted? then old(store.items)[FormUserKey := JsonText.EncodeFormUser(s.email, s.name)]
                             else old(store.items))
          && redirect == (if s.Accepted? then Some(DashboardPath) else old(redirect))
    {
      var s := Validate(job.isLogin, job.form);
      if s.Accepted? {
        var written := store.SetItem(FormUserKey, JsonText.EncodeFormUser(s.email, s.name));
        if written.Threw? {
          return;
        }
        redirect := Some(DashboardPath);
      }
      message := s.message;
      loading := false;
    }
  }
}
