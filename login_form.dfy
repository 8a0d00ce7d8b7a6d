/** The login form (src/features/auth/login-form.tsx): the schema, the
    error map, the loading flag around the login request, the hand-over to
    the auth store and the redirect target.

    The submit handler awaits the request, so it is two methods here:
    BeginSubmit runs up to the request, CompleteSubmit from its outcome on.
    zod's e-mail check is the parameter isEmail; the callbackUrl search
    parameter is an argument. */
module LoginForm {
  import opened Common
  import opened Types
  import opened QueryClient
  import opened Forms
  import AuthStore

  datatype Field = Email | Password

  const InvalidEmail := "Invalid email address"
  const PasswordRequired := "Password is required"
  const LoginFailed := "Login failed"
  const DefaultCallback := "/projects"

  /** loginSchema.safeParse: the e-mail check's issue, then the password's. */
  function Validate(email: string, password: string, isEmail: string -> bool): seq<Issue<Field>>
  {
    (if isEmail(email) then [] else [Issue(Email, InvalidEmail)])
      + (if password == "" then [Issue(Password, PasswordRequired)] else [])
  }

  /** The parse succeeds exactly when the e-mail passes the check and the
      password is non-empty; otherwise each failing field has its own message. */
  lemma ValidateErrors(email: string, password: string, isEmail: string -> bool)
    ensures Validate(email, password, isEmail) == [] <==> isEmail(email) && password != ""
    ensures var errors := FieldErrors(Validate(email, password, isEmail));
      && (Email in errors <==> !isEmail(email))
      && (Email in errors ==> errors[Email] == InvalidEmail)
      && (Password in errors <==> password == "")
      && (Password in errors ==> errors[Password] == PasswordRequired)
  {
    var a: seq<Issue<Field>> := if isEmail(email) then [] else [Issue(Email, InvalidEmail)];
    var b: seq<Issue<Field>> := if password == "" then [Issue(Password, PasswordRequired)] else [];
    FieldErrorsConcat(a, b);
    var ea: map<Field, string> := if isEmail(email) then map[] else map[Email := InvalidEmail];
    var eb: map<Field, string> := if password == "" then map[Password := PasswordRequired] else map[];
    assert a == [] || a[..0] == [];
    assert b == [] || b[..0] == [];
    assert FieldErrors(a) == ea;
    assert FieldErrors(b) == eb;
    var errors := FieldErrors(a + b);
    assert errors == ea + eb;
    assert Email in errors <==> Email in ea;
    assert Password in errors <==> Password in eb;
  }

  /** The login request: the parsed credentials posted to /api/auth/login. */
  function LoginRequest(email: string, password: string): (r: Request)
    ensures r.verb == Post && r.path == "/api/auth/login"
    ensures r.body == Some(map["email" := JString(email), "password" := JString(password)])
  {
    Request(Post, "/api/auth/login", Some(map["email" := JString(email), "password" := JString(password)]))
  }

  /** `searchParams.get("callbackUrl") || "/projects"`. */
  function CallbackUrl(param: Option<string>): (r: string)
    ensures r != ""
    ensures TruthyString(param) ==> r == param.value
    ensures !TruthyString(param) ==> r == DefaultCallback
  {
    if param.Some? && param.value != "" then param.value else DefaultCallback
  }

  class Form {
    var isLoading: bool
    var errors: map<Field, string>
    const store: AuthStore.Store

    constructor(store: AuthStore.Store)
      ensures !isLoading && errors == map[] && this.store == store
    {
      isLoading := false;
      errors := map[];
      this.store := store;
    }

    /** handleSubmit up to the request: clears the errors; an invalid form
        stores one message per field and sends nothing; a valid one turns
        the loading flag on and sends the login request. */
    method BeginSubmit(email: string, password: string, isEmail: string -> bool) returns (sent: Option<Request>)
      modifies this
      ensures var issues := Validate(email, password, isEmail);
        if issues != [] then
          sent == None && errors == FieldErrors(issues) && isLoading == old(isLoading)
        else
          sent == Some(LoginRequest(email, password)) && errors == map[] && isLoading
    {
      errors := map[];
      var issues := Validate(email, password, isEmail);
      if issues != [] {
        errors := CollectFieldErrors(issues);
        return None;
      }
      isLoading := true;
      sent := Some(LoginRequest(email, password));
    }

    /** handleSubmit after the request: on success hands the token and user
        to the store and redirects to the callback URL; on failure raises
        the error toast. Either way the loading flag ends off. */
    method CompleteSubmit(outcome: Outcome<AuthResponse>, callbackParam: Option<string>)
      returns (redirect: Option<string>, toast: Option<Toast>)
      requires store.Valid()
      modifies this, store, store.browser
      ensures store.Valid() && !isLoading && errors == old(errors)
      ensures outcome.Succeeded? ==>
        && redirect == Some(CallbackUrl(callbackParam)) && toast == None
        && store.Snapshot() == AuthStore.Step(old(store.Snapshot()), AuthStore.Action.SetAuth(outcome.value.token, outcome.value.user))
        && store.browser.storedToken == Some(outcome.value.token)
        && store.browser.cookie == AuthStore.AuthCookie(outcome.value.token)
      ensures outcome.Failed? ==>
        && redirect == None && toast == Some(ErrorToast(ErrorMessage(outcome.thrown, LoginFailed)))
        && store.Snapshot() == old(store.Snapshot())
        && unchanged(store.browser)
    {
      match outcome {
        case Succeeded(res) =>
          store.SetAuth(res.token, res.user);
          redirect := Some(CallbackUrl(callbackParam));
          toast := None;
        case Failed(thrown) =>
          redirect := None;
          toast := Some(ErrorToast(ErrorMessage(thrown, LoginFailed)));
      }
      isLoading := false;
    }
  }
}
