/** The Supabase authentication provider: the session state it keeps, the two sources that
    update it (the initial session fetch and the auth-state subscription), the three auth
    actions, and the `useSupabaseAuth` accessor. */
module SupabaseAuth {
  import opened Common

  datatype User = User(id: string, email: string)
  datatype Session = Session(accessToken: string, user: Option<User>)

  /** What the provider exposes; it has no `roles` member. */
  datatype ContextValue = ContextValue(user: Option<User>, session: Option<Session>, loading: bool)

  /** `session?.user ?? null`. */
  function UserOf(session: Option<Session>): (u: Option<User>)
    ensures session.Some? ==> u == session.value.user
    ensures session.None? ==> u.None?
  {
    if session.Some? then session.value.user else None
  }

  class AuthProvider {
    var user: Option<User>
    var session: Option<Session>
    var loading: bool
    /** The effect's `isMounted` flag. */
    var isMounted: bool
    /** Whether the `onAuthStateChange` subscription is live. */
    var subscribed: bool

    /** The user is always the session's user, and the flag and the subscription live and die
        together. */
    ghost predicate Valid()
      reads this
    {
      user == UserOf(session) && isMounted == subscribed
    }

    function Value(): (v: ContextValue)
      reads this
      ensures v.user == user && v.session == session && v.loading == loading
      ensures Valid() ==> v.user == UserOf(v.session)
    {
      ContextValue(user, session, loading)
    }

    constructor ()
      ensures Valid() && user.None? && session.None? && loading && !isMounted && !subscribed
    {
      user := None;
      session := None;
      loading := true;
      isMounted := false;
      subscribed := false;
    }

    /** `handleSession`: store the session and its user, and end the initial loading. */
    method HandleSession(s: Option<Session>)
      requires Valid()
      modifies this
      ensures Valid()
      ensures session == s && user == UserOf(s) && !loading
      ensures isMounted == old(isMounted) && subscribed == old(subscribed)
    {
      session := s;
      user := UserOf(s);
      loading := false;
    }

    /** The effect body: mark mounted and subscribe; the session fetch it starts settles later
        through `OnSessionFetched`. */
    method Mount()
      requires Valid()
      modifies this
      ensures Valid() && isMounted && subscribed
      ensures user == old(user) && session == old(session) && loading == old(loading)
    {
      isMounted := true;
      subscribed := true;
    }

    /** The effect cleanup: clear the flag and unsubscribe. */
    method Unmount()
      requires Valid()
      modifies this
      ensures Valid() && !isMounted && !subscribed
      ensures user == old(user) && session == old(session) && loading == old(loading)
    {
      isMounted := false;
      subscribed := false;
    }

    /** `bootstrapSession` settling: while mounted, a fetched session is handled and a failure
        (a returned error is rethrown, so it lands here too) is handled as no session; after
        unmounting nothing changes. */
    method OnSessionFetched(fetched: Call<Option<Session>>)
      requires Valid()
      modifies this
      ensures Valid()
      ensures isMounted == old(isMounted) && subscribed == old(subscribed)
      ensures old(isMounted) && fetched.Returned? ==>
        session == fetched.value && user == UserOf(fetched.value) && !loading
      ensures old(isMounted) && fetched.Threw? ==> session.None? && user.None? && !loading
      ensures !old(isMounted) ==>
        user == old(user) && session == old(session) && loading == old(loading)
    {
      if isMounted {
        match fetched {
          case Returned(s) => HandleSession(s);
          case Threw(_) => HandleSession(None);
        }
      }
    }

    /** An `onAuthStateChange` event: handled while subscribed, never delivered afterwards. */
    method OnAuthStateChange(s: Option<Session>)
      requires Valid()
      modifies this
      ensures Valid()
      ensures isMounted == old(isMounted) && subscribed == old(subscribed)
      ensures old(subscribed) ==> session == s && user == UserOf(s) && !loading
      ensures !old(subscribed) ==>
        user == old(user) && session == old(session) && loading == old(loading)
    {
      if subscribed {
        HandleSession(s);
      }
    }
  }

  datatype AuthAction = SignUp | SignIn | SignOut

  function FailureTitle(a: AuthAction): (title: string)
    ensures title in {"Sign up failed", "Sign in failed", "Sign out failed"}
  {
    match a
    case SignUp => "Sign up failed"
    case SignIn => "Sign in failed"
    case SignOut => "Sign out failed"
  }

  /** An action's promise: it resolves with `{ error }` (and a destructive toast when the error
      is set), or rejects when the client call itself throws. */
  datatype ActionResult = Settled(error: Option<Failure>, toast: Option<Toast>) | Rejected(failure: Failure)

  /** `signUp`, `signIn` and `signOut` share one shape, given the client's reply. */
  function RunAction(a: AuthAction, reply: Call<Option<Failure>>): (r: ActionResult)
    ensures r.Rejected? <==> reply.Threw?
    ensures r.Rejected? ==> r.failure == reply.failure
    ensures r.Settled? ==> r.error == reply.value
    ensures r.Settled? ==> (r.toast.Some? <==> r.error.Some?)
    ensures r.Settled? && r.toast.Some? ==>
      r.toast.value.destructive && r.toast.value.title == FailureTitle(a) &&
      r.toast.value.description != "" &&
      (r.error.value.message != "" ==> r.toast.value.description == r.error.value.message) &&
      (r.error.value.message == "" ==> r.toast.value.description == "Something went wrong")
  {
    match reply
    case Threw(f) => Rejected(f)
    case Returned(None) => Settled(None, None)
    case Returned(Some(e)) =>
      Settled(Some(e), Some(Toast(FailureTitle(a), MessageOr(e, "Something went wrong"), true)))
  }

  /** The three actions' failure toasts can be told apart by their titles. */
  lemma ActionTitlesDistinct(a: AuthAction, b: AuthAction)
    requires FailureTitle(a) == FailureTitle(b)
    ensures a == b
  {
  }

  const OutsideProviderMessage := "useSupabaseAuth must be used within a SupabaseAuthProvider"

  /** `useSupabaseAuth`: the provider's value, or a thrown error outside any provider. */
  function UseSupabaseAuth(context: Option<ContextValue>): (r: Call<ContextValue>)
    ensures r.Returned? <==> context.Some?
    ensures r.Returned? ==> r.value == context.value
    ensures r.Threw? ==> r.failure.message == OutsideProviderMessage
  {
    if context.Some? then Returned(context.value) else Threw(Failure(OutsideProviderMessage))
  }
}
