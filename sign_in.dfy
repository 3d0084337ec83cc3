/** The login page: both fields are demanded before the session is asked to
    sign in; a success goes to the dashboard and a failure shows one fixed
    message, whatever the backend said. */
module SignIn {
  import opened Domain
  import opened Http
  import opened AuthContext
  import PrivateRoutes

  const MissingFields := "Preencha e-mail e senha."
  const WrongCredentials := "E-mail ou senha inválidos."

  /** The request a submit makes: none while either field is empty. */
  function LoginEffect(email: string, senha: string): (e: Effect<Credentials>)
    ensures e.Request? <==> email != "" && senha != ""
    ensures !e.Request? ==> e == Rejected(MissingFields)
    ensures e.Request? ==> e == Request(Post, LoginPath, Credentials(email, senha))
  {
    if email == "" || senha == "" then Rejected(MissingFields)
    else Request(Post, LoginPath, Credentials(email, senha))
  }

  class SignInPage {
    var email: string
    var senha: string
    var error: string
    var loadingLocal: bool

    constructor ()
      ensures email == "" && senha == "" && error == "" && !loadingLocal
    {
      email := "";
      senha := "";
      error := "";
      loadingLocal := false;
    }

    method TypeEmail(text: string)
      modifies this`email
      ensures email == text
    {
      email := text;
    }

    method TypePassword(text: string)
      modifies this`senha
      ensures senha == text
    {
      senha := text;
    }

    /** `handleLogin`: the previous error is cleared first. After a
        successful sign-in the page navigates away with its spinner still
        on; after a failure the spinner stops and the message is shown. */
    method HandleLogin(auth: AuthProvider, reply: LoginReply) returns (e: Effect<Credentials>, navigateTo: Option<string>)
      requires auth.Valid()
      modifies this`error, this`loadingLocal, auth`user, auth`storage, auth`defaultAuthorization
      ensures auth.Valid()
      ensures e == LoginEffect(email, senha)
      ensures e.Rejected? ==>
        error == MissingFields && !loadingLocal && navigateTo == None && unchanged(auth)
      ensures e.Request? && reply.LoggedIn? ==>
        && error == "" && loadingLocal && navigateTo == Some("/dashboard")
        && auth.user == Some(reply.user) && auth.storage == StoredSession(reply.token, reply.user)
      ensures e.Request? && reply.LoginFailed? ==>
        error == WrongCredentials && !loadingLocal && navigateTo == None && unchanged(auth)
    {
      error := "";
      loadingLocal := true;
      if email == "" || senha == "" {
        error := MissingFields;
        loadingLocal := false;
        e := Rejected(MissingFields);
        navigateTo := None;
        return;
      }
      var ok;
      e, ok := auth.SignIn(email, senha, reply);
      if ok {
        navigateTo := Some("/dashboard");
      } else {
        error := WrongCredentials;
        loadingLocal := false;
        navigateTo := None;
      }
    }
  }

  /** An empty password never reaches the backend, whatever the email. */
  lemma EmptyPasswordIsRejected(email: string)
    ensures LoginEffect(email, "") == Rejected(MissingFields)
  {
  }

  /** A successful login from the page leaves the guard letting the user
      through to an unrestricted page. */
  method LoginOpensDashboard(auth: AuthProvider, token: string, u: User)
      returns (navigateTo: Option<string>, guard: PrivateRoutes.Outcome)
    requires auth.Valid() && !auth.loading
    modifies auth`user, auth`storage, auth`defaultAuthorization
    ensures navigateTo == Some("/dashboard")
    ensures guard == PrivateRoutes.Outlet
  {
    var page := new SignInPage();
    page.TypeEmail("operador@empresa.com");
    page.TypePassword("segredo");
    var e;
    e, navigateTo := page.HandleLogin(auth, LoggedIn(token, u));
    guard := PrivateRoutes.Guard(auth.loading, auth.user, None);
  }
}
