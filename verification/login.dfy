/** The login page: the redirect for a present user, field edits, and the submit cycle through
    the auth provider's `signIn`. */
module Login {
  import opened Common
  import opened SupabaseAuth
  import App

  const AdminPath := "/admin"

  /** The redirect effect: whenever a user is present the page navigates to the admin area. */
  function RedirectTarget(user: Option<User>): (to: Option<string>)
    ensures to.Some? <==> user.Some?
    ensures to.Some? ==> to.value == AdminPath
  {
    if user.Some? then Some(AdminPath) else None
  }

  datatype Field = Email | Password

  datatype Credentials = Credentials(email: string, password: string)
  {
    function Get(f: Field): string {
      match f
      case Email => email
      case Password => password
    }

    /** `{ ...formData, [name]: value }`: the named field only. */
    function With(f: Field, value: string): (r: Credentials)
      ensures r.Get(f) == value
      ensures forall g :: g != f ==> r.Get(g) == Get(g)
    {
      match f
      case Email => this.(email := value)
      case Password => this.(password := value)
    }
  }

  const EmptyCredentials := Credentials("", "")

  /** Both inputs are `required`. */
  predicate Submittable(c: Credentials) {
    c.email != "" && c.password != ""
  }

  const WelcomeToast := Toast("¡Bienvenido!", "Has iniciado sesión correctamente.", false)
  const ThrownFallback := "Credenciales incorrectas. Por favor intenta nuevamente."

  function ThrownToast(f: Failure): (t: Toast)
    ensures t.destructive && t.title == "Error de autenticación" && t.description != ""
    ensures f.message != "" ==> t.description == f.message
    ensures f.message == "" ==> t.description == ThrownFallback
  {
    Toast("Error de autenticación", MessageOr(f, ThrownFallback), true)
  }

  /** The toasts and navigation once `signIn` has settled. `signIn` resolves with `{ error }`
      rather than throwing on bad credentials, so every resolved call welcomes the user and
      goes to the admin area (after the provider's own failure toast, if any); only a thrown
      call shows the authentication error and stays. */
  function SignInOutcome(reply: Call<Option<Failure>>): (out: (seq<Toast>, Option<string>))
    ensures reply.Returned? ==> out.1 == Some(AdminPath)
    ensures reply.Returned? ==> |out.0| > 0 && out.0[|out.0| - 1] == WelcomeToast
    ensures reply.Returned? && reply.value.Some? ==>
      |out.0| == 2 && out.0[0].title == FailureTitle(SignIn) && out.0[0].destructive
    ensures reply.Returned? && reply.value.None? ==> out.0 == [WelcomeToast]
    ensures reply.Threw? ==> out == ([ThrownToast(reply.failure)], None)
  {
    match RunAction(SignIn, reply)
    case Settled(_, toast) =>
      ((if toast.Some? then [toast.value] else []) + [WelcomeToast], Some(AdminPath))
    case Rejected(f) => ([ThrownToast(f)], None)
  }

  /** A wrong password still navigates to `/admin`, whose guard then sends a signed-out,
      loaded session back to `/login`. */
  lemma WrongPasswordBouncesBack(e: Failure, session: Option<Session>)
    ensures SignInOutcome(Returned(Some(e))).1 == Some(AdminPath)
    ensures App.Navigate(["admin"], ContextValue(None, session, false)) == App.Redirect("/login")
  {
    assert App.Matches(App.Routes[5].pattern, ["admin"]);
    assert App.FindRoute(["admin"], 0) == Some(5) by {
      forall l | 0 <= l < 5 ensures !App.Matches(App.Routes[l].pattern, ["admin"]) {
        if |App.Routes[l].pattern| == 1 {
          assert !App.SegMatches(App.Routes[l].pattern[0], "admin");
        }
      }
    }
  }

  class LoginPage {
    var form: Credentials
    var loading: bool

    constructor ()
      ensures form == EmptyCredentials && !loading
    {
      form := EmptyCredentials;
      loading := false;
    }

    /** `handleChange`. */
    method HandleChange(f: Field, value: string)
      modifies this
      ensures form == old(form).With(f, value) && loading == old(loading)
    {
      form := form.With(f, value);
    }

    /** `handleSubmit` up to its await: blocked while loading or with an empty input; otherwise
        the spinner goes on and `signIn` is called with the current email and password. */
    method BeginSubmit() returns (request: Option<Credentials>)
      modifies this
      ensures request.Some? <==> !old(loading) && Submittable(old(form))
      ensures request.Some? ==> request.value == form && loading
      ensures request.None? ==> loading == old(loading)
      ensures form == old(form)
    {
      if loading || !Submittable(form) {
        return None;
      }
      loading := true;
      request := Some(form);
    }

    /** `handleSubmit` after its await: the outcome above, and the spinner goes off. */
    method OnSignInSettled(reply: Call<Option<Failure>>) returns (toasts: seq<Toast>, navigateTo: Option<string>)
      modifies this
      ensures !loading && form == old(form)
      ensures (toasts, navigateTo) == SignInOutcome(reply)
    {
      toasts, navigateTo := SignInOutcome(reply).0, SignInOutcome(reply).1;
      loading := false;
    }
  }
}
