// The Firebase provider: the user-authentication record that auth events
// replace, the context value derived from the service handles and that
// record, the guards of `useFirebase`, and the tagging done by
// `useMemoFirebase`.
module Provider {
  import opened Results

  /** A signed-in Firebase user, identified by uid. */
  datatype AuthUser = AuthUser(uid: string)

  /** A value found in the ID token's custom claims. */
  datatype ClaimValue = ClaimBool(b: bool) | ClaimString(s: string) | ClaimNumber(n: int) | ClaimNull | ClaimObject

  /** The custom claims of an ID token; only `admin` is consulted. */
  datatype Claims = Claims(admin: Option<ClaimValue>)

  /** `claims.admin === true`: strictly the boolean true, not the string
      "true" nor the number 1. */
  predicate AdminClaim(c: Claims) {
    c.admin == Some(ClaimBool(true))
  }

  datatype UserAuthState = UserAuthState(
    user: Option<AuthUser>, isAdmin: bool, isAuthLoading: bool, userError: Option<ThrownValue>)

  const AuthNotProvided: string := "Auth service not provided."

  /** Before the first auth event: no user, not admin, loading. */
  function InitialState(): (s: UserAuthState)
    ensures s.user.None? && !s.isAdmin && s.isAuthLoading && s.userError.None?
  {
    UserAuthState(None, false, true, None)
  }

  /** What the provider's effect and the auth listener report. */
  datatype AuthEvent =
      /** The effect ran without an auth service. */
    | NoAuthService
      /** The effect ran with an auth service and subscribed. */
    | Subscribed
      /** The listener saw a user; `token` is the outcome of fetching the
          user's ID token result. */
    | SignedIn(u: AuthUser, token: Outcome<Claims>)
      /** The listener saw no user. */
    | SignedOut
      /** The listener's error callback. */
    | ListenerError(error: ThrownValue)

  /** Admin status is only ever granted to a present user, and never beside
      a recorded error. */
  predicate Consistent(s: UserAuthState) {
    s.isAdmin ==> s.user.Some? && s.userError.None?
  }

  /** The state after `e`. Every event keeps the state consistent, and the
      admin flag is set only by a successful token fetch carrying the strict
      claim, or kept by a resubscription. */
  function Reduce(s: UserAuthState, e: AuthEvent): (r: UserAuthState)
    ensures Consistent(s) ==> Consistent(r)
    ensures r.isAdmin <==>
      (e.SignedIn? && e.token.Ok? && AdminClaim(e.token.value)) || (e.Subscribed? && s.isAdmin)
    ensures e.NoAuthService? ==>
      r == UserAuthState(None, false, false, Some(ErrorObject(AuthNotProvided)))
    ensures e.Subscribed? ==> r == s.(isAuthLoading := true)
    ensures e.SignedIn? ==> r.user == Some(e.u) && !r.isAuthLoading
    ensures e.SignedIn? && e.token.Ok? ==> (r.isAdmin <==> AdminClaim(e.token.value)) && r.userError.None?
    ensures e.SignedIn? && e.token.Thrown? ==> !r.isAdmin && r.userError == Some(e.token.error)
    ensures e.SignedOut? ==> r == UserAuthState(None, false, false, None)
    ensures e.ListenerError? ==> r == UserAuthState(None, false, false, Some(e.error))
  {
    match e
    case NoAuthService => UserAuthState(None, false, false, Some(ErrorObject(AuthNotProvided)))
    case Subscribed => s.(isAuthLoading := true)
    case SignedIn(u, token) =>
      (match token
       case Ok(claims) => UserAuthState(Some(u), AdminClaim(claims), false, None)
       case Thrown(err) => UserAuthState(Some(u), false, false, Some(err)))
    case SignedOut => UserAuthState(None, false, false, None)
    case ListenerError(err) => UserAuthState(None, false, false, Some(err))
  }

  /** The state after a sequence of events. */
  function Run(s: UserAuthState, events: seq<AuthEvent>): UserAuthState
    decreases |events|
  {
    if events == [] then s else Run(Reduce(s, events[0]), events[1..])
  }

  /** In every state reachable from a consistent one (the initial state
      is), `isAdmin` implies a non-null user. */
  lemma {:induction false} ReachableConsistent(s: UserAuthState, events: seq<AuthEvent>)
    requires Consistent(s)
    ensures Consistent(Run(s, events))
    ensures Run(s, events).isAdmin ==> Run(s, events).user.Some?
    decreases |events|
  {
    if events != [] {
      ReachableConsistent(Reduce(s, events[0]), events[1..]);
    }
  }

  /** The provider's `userAuthState` cell, replaced by each callback. */
  class AuthProvider {
    var userAuthState: UserAuthState

    constructor ()
      ensures userAuthState == InitialState()
    {
      userAuthState := InitialState();
    }

    /** The effect that runs when `auth` is set: without auth it records the
        error; with auth it marks loading and subscribes. */
    method OnAuthChanged(authPresent: bool)
      modifies this
      ensures userAuthState == Reduce(old(userAuthState), if authPresent then Subscribed else NoAuthService)
    {
      if !authPresent {
        userAuthState := UserAuthState(None, false, false, Some(ErrorObject(AuthNotProvided)));
        return;
      }
      userAuthState := userAuthState.(isAuthLoading := true);
    }

    /** The listener's success callback: `user` is the reported user, and
        `token` what fetching its ID token result gave (only fetched for a
        present user). */
    method OnAuthStateChanged(user: Option<AuthUser>, token: Outcome<Claims>)
      modifies this
      ensures userAuthState == Reduce(old(userAuthState), if user.Some? then SignedIn(user.value, token) else SignedOut)
    {
      if user.Some? {
        match token {
          case Ok(claims) =>
            var isAdminClaim := claims.admin == Some(ClaimBool(true));
            userAuthState := UserAuthState(user, isAdminClaim, false, None);
          case Thrown(err) =>
            userAuthState := UserAuthState(user, false, false, Some(err));
        }
      } else {
        userAuthState := UserAuthState(None, false, false, None);
      }
    }

    /** The listener's error callback. */
    method OnListenerError(error: ThrownValue)
      modifies this
      ensures userAuthState == Reduce(old(userAuthState), ListenerError(error))
    {
      userAuthState := UserAuthState(None, false, false, Some(error));
    }
  }

  /** An opaque service handle (app, Firestore or Auth instance). */
  datatype Handle = Handle(name: string)

  datatype ContextState = ContextState(
    areServicesAvailable: bool,
    firebaseApp: Option<Handle>, firestore: Option<Handle>, auth: Option<Handle>,
    user: Option<AuthUser>, isAdmin: bool, isAuthLoading: bool, userError: Option<ThrownValue>)

  /** The context value: services are available iff all three handles are
      present, in which case they are passed on; otherwise all three are
      exposed as null. The auth fields are copied from the record. */
  function ContextValue(app: Option<Handle>, firestore: Option<Handle>, auth: Option<Handle>,
                        s: UserAuthState): (c: ContextState)
    ensures c.areServicesAvailable <==> app.Some? && firestore.Some? && auth.Some?
    ensures c.areServicesAvailable ==> c.firebaseApp == app && c.firestore == firestore && c.auth == auth
    ensures !c.areServicesAvailable ==> c.firebaseApp.None? && c.firestore.None? && c.auth.None?
    ensures c.user == s.user && c.isAdmin == s.isAdmin
    ensures c.isAuthLoading == s.isAuthLoading && c.userError == s.userError
  {
    var available := app.Some? && firestore.Some? && auth.Some?;
    ContextState(available,
      if available then app else None,
      if available then firestore else None,
      if available then auth else None,
      s.user, s.isAdmin, s.isAuthLoading, s.userError)
  }

  datatype ServicesAndUser = ServicesAndUser(
    firebaseApp: Handle, firestore: Handle, auth: Handle,
    user: Option<AuthUser>, isAdmin: bool, isAuthLoading: bool, userError: Option<ThrownValue>)

  const OutsideProvider: string := "useFirebase must be used within a FirebaseProvider."
  const ServicesUnavailable: string := "Firebase core services not available. Check FirebaseProvider props."

  /** `useFirebase`: throws outside a provider, throws when the services are
      not available, and otherwise returns the handles and the auth state. */
  function UseFirebase(context: Option<ContextState>): (r: Outcome<ServicesAndUser>)
    ensures context.None? ==> r == Thrown(ErrorObject(OutsideProvider))
    ensures r.Ok? <==>
      (context.Some? && context.value.areServicesAvailable &&
       context.value.firebaseApp.Some? && context.value.firestore.Some? && context.value.auth.Some?)
    ensures r.Thrown? && context.Some? ==> r == Thrown(ErrorObject(ServicesUnavailable))
    ensures r.Ok? ==>
      Some(r.value.firebaseApp) == context.value.firebaseApp &&
      Some(r.value.firestore) == context.value.firestore &&
      Some(r.value.auth) == context.value.auth &&
      r.value.user == context.value.user && r.value.isAdmin == context.value.isAdmin &&
      r.value.isAuthLoading == context.value.isAuthLoading && r.value.userError == context.value.userError
  {
    match context
    case None => Thrown(ErrorObject(OutsideProvider))
    case Some(c) =>
      if !c.areServicesAvailable || c.firebaseApp.None? || c.firestore.None? || c.auth.None? then
        Thrown(ErrorObject(ServicesUnavailable))
      else
        Ok(ServicesAndUser(c.firebaseApp.value, c.firestore.value, c.auth.value,
                           c.user, c.isAdmin, c.isAuthLoading, c.userError))
  }

  /** Inside a provider, `useFirebase` succeeds exactly when all three
      service handles were given, and then reports the provider's state. */
  lemma UseFirebaseInsideProvider(app: Option<Handle>, firestore: Option<Handle>, auth: Option<Handle>,
                                  s: UserAuthState)
    ensures UseFirebase(Some(ContextValue(app, firestore, auth, s))).Ok? <==>
      app.Some? && firestore.Some? && auth.Some?
    ensures !(app.Some? && firestore.Some? && auth.Some?) ==>
      UseFirebase(Some(ContextValue(app, firestore, auth, s))) == Thrown(ErrorObject(ServicesUnavailable))
    ensures UseFirebase(Some(ContextValue(app, firestore, auth, s))).Ok? ==>
      var v := UseFirebase(Some(ContextValue(app, firestore, auth, s))).value;
      v.user == s.user && v.isAdmin == s.isAdmin && v.isAuthLoading == s.isAuthLoading
  {
  }

  /** An object produced by a memoised factory; `memo` is its `__memo` tag. */
  class MemoTarget {
    var memo: bool

    constructor ()
      ensures !memo
    {
      memo := false;
    }
  }

  /** What a memoised factory may return: null, a non-object value
      (including a function), or an object. */
  datatype Memoized = NullValue | NonObject | ObjectValue(target: MemoTarget)

  /** `useMemoFirebase` after memoisation: an object is tagged with
      `__memo = true`; null and non-objects are returned untouched. The
      value itself is always returned. */
  method MarkMemo(m: Memoized) returns (r: Memoized)
    modifies if m.ObjectValue? then {m.target} else {}
    ensures r == m
    ensures m.ObjectValue? ==> m.target.memo
  {
    if !m.ObjectValue? {
      return m;
    }
    m.target.memo := true;
    return m;
  }
}
