/** The login page: the credentials form, the login call, and where a
    successful login navigates. */
module LoginView {
  import opened Common
  import opened Sessions
  import opened AuthContext
  import AppRoutes

  datatype Credentials = Credentials(username: string, password: string)

  const InitialCredentials := Credentials("", "")

  const LoginFailedMessage := "Login failed"
  const AdminLanding := "/admin/dashboard"
  const UserLanding := "/user/dashboard"

  datatype Field = UsernameField | PasswordField

  /** `handleChange`: only the named field takes the new value. */
  function WithField(form: Credentials, field: Field, value: string): (r: Credentials)
    ensures r.username == if field == UsernameField then value else form.username
    ensures r.password == if field == PasswordField then value else form.password
  {
    match field
    case UsernameField => form.(username := value)
    case PasswordField => form.(password := value)
  }

  /** `POST /auth/login` with the form as its JSON body. */
  function LoginRequest(form: Credentials): (r: Request)
    ensures r.verb == Post && r.path == "/auth/login" && r.body.Json?
    ensures r.body.fields == map["username" := form.username, "password" := form.password]
  {
    Request(Post, "/auth/login", Json(map["username" := form.username, "password" := form.password]))
  }

  /** Where a successful login goes: admins to the admin landing path,
      every other role to the user landing path. */
  function LandingPath(role: string): (path: string)
    ensures path == AdminLanding <==> role == "admin"
    ensures path == AdminLanding || path == UserLanding
  {
    if role == "admin" then AdminLanding else UserLanding
  }

  /** Neither landing path is in the route table: whatever the session,
      a successful login lands on the not-found page. */
  lemma LandingIsNotFound(user: Option<Session>, role: string)
    ensures AppRoutes.Navigate(user, LandingPath(role)) == AppRoutes.Shows(AppRoutes.NotFoundPage)
  {
    AppRoutes.OtherPathsNotFound(user, LandingPath(role));
  }

  class Login {
    var formData: Credentials
    var error: string
    var loading: bool
    /** The authentication context the page logs into. */
    const auth: AuthProvider

    constructor (auth: AuthProvider)
      ensures this.auth == auth
      ensures formData == InitialCredentials && error == "" && !loading
    {
      this.auth := auth;
      formData, error, loading := InitialCredentials, "", false;
    }

    method HandleChange(field: Field, value: string)
      modifies this`formData
      ensures formData == WithField(old(formData), field, value)
    {
      formData := WithField(formData, field, value);
    }

    /** The part of `handleSubmit` before the request: `loading` is set and
        any earlier error is cleared. */
    method BeginSubmit() returns (req: Request)
      modifies this`loading, this`error
      ensures loading && error == ""
      ensures req == LoginRequest(formData)
    {
      loading := true;
      error := "";
      req := LoginRequest(formData);
    }

    /** The part after the request settles. On success the returned record
        is logged in and then the page navigates by role; on failure the
        error is the server's message or the fallback, the session is left
        alone and nothing navigates. `loading` ends false either way. */
    method Settle(resp: Response<Session>) returns (navigateTo: Option<string>)
      modifies this`error, this`loading, auth, auth.storage
      ensures !loading
      ensures resp.Success? ==>
                auth.State() == AfterLogin(old(auth.State()), resp.data) &&
                navigateTo == Some(LandingPath(resp.data.user.role)) && error == old(error)
      ensures resp.Failure? ==>
                auth.State() == old(auth.State()) && navigateTo.None? &&
                error == TruthyOr(resp.error.message, LoginFailedMessage)
    {
      match resp {
        case Success(data) =>
          auth.Login(data);
          navigateTo := Some(LandingPath(data.user.role));
        case Failure(e) =>
          error := TruthyOr(e.message, LoginFailedMessage);
          navigateTo := None;
      }
      loading := false;
    }

    /** The whole `handleSubmit`. */
    method HandleSubmit(resp: Response<Session>) returns (req: Request, navigateTo: Option<string>)
      modifies this`error, this`loading, auth, auth.storage
      ensures req == LoginRequest(formData) && !loading
      ensures resp.Success? ==>
                auth.State() == AfterLogin(old(auth.State()), resp.data) && InStep(auth.State()) &&
                navigateTo == Some(LandingPath(resp.data.user.role)) && error == ""
      ensures resp.Failure? ==>
                auth.State() == old(auth.State()) && navigateTo.None? &&
                error == TruthyOr(resp.error.message, LoginFailedMessage) && error != ""
    {
      req := BeginSubmit();
      navigateTo := Settle(resp);
    }
  }
}
