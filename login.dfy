// The admin login page: an already-admin visitor is sent to /admin, and
// `handleSignIn` raises `isLoading` around the sign-in attempt, lowering it
// again only when the attempt fails.
module Login {
  import opened Results
  import AdminLayout

  const AdminPath: string := "/admin"
  const AuthUnavailable: string := "Authentication service is not available."
  const SigningIn: string := "Please wait while we verify your credentials."
  const WrongCredentials: string := "The email or password you entered is incorrect."

  /** The navigation made while rendering: to /admin once auth has resolved
      and the user is an admin. */
  function LoginRedirect(isAuthLoading: bool, isAdmin: bool): (r: Option<string>)
    ensures r.Some? <==> !isAuthLoading && isAdmin
    ensures r.Some? ==> r.value == AdminPath
  {
    if !isAuthLoading && isAdmin then Some(AdminPath) else None
  }

  /** The login page and the admin layout never send a visitor back and
      forth: for any auth state at most one of them redirects, and once auth
      has resolved exactly one does. */
  lemma NoRedirectLoop(isAuthLoading: bool, isAdmin: bool)
    ensures !(LoginRedirect(isAuthLoading, isAdmin).Some? && AdminLayout.RedirectTarget(isAuthLoading, isAdmin).Some?)
    ensures !isAuthLoading ==>
      LoginRedirect(isAuthLoading, isAdmin).Some? != AdminLayout.RedirectTarget(isAuthLoading, isAdmin).Some?
  {
  }

  /** What the handler does, in order. */
  datatype LoginEffect =
    | ErrorToast(description: string)
    | InfoToast(description: string)
    | SetLoading(value: bool)
    | SignInAttempt(email: string, password: string)

  /** The flag after a run of effects that started from `loading`. */
  function LoadingAfter(loading: bool, effects: seq<LoginEffect>): bool
    decreases |effects|
  {
    if effects == [] then loading
    else LoadingAfter(if effects[0].SetLoading? then effects[0].value else loading, effects[1..])
  }

  /** Whether a sign-in was attempted. */
  predicate Attempted(effects: seq<LoginEffect>) {
    exists i :: 0 <= i < |effects| && effects[i].SignInAttempt?
  }

  /** `handleSignIn`'s effects: without an auth service, an error toast and
      nothing else; otherwise the flag goes up before the attempt, and a
      failed attempt shows an error and lowers it. */
  function SignInEffects(authPresent: bool, email: string, password: string, succeeded: bool): (effects: seq<LoginEffect>)
    ensures !authPresent ==> effects == [ErrorToast(AuthUnavailable)]
    ensures authPresent ==>
      |effects| >= 3 && effects[0] == SetLoading(true) && effects[1] == SignInAttempt(email, password)
    ensures authPresent && succeeded ==> effects[2..] == [InfoToast(SigningIn)]
    ensures authPresent && !succeeded ==> effects[2..] == [ErrorToast(WrongCredentials), SetLoading(false)]
  {
    if !authPresent then [ErrorToast(AuthUnavailable)]
    else if succeeded then [SetLoading(true), SignInAttempt(email, password), InfoToast(SigningIn)]
    else [SetLoading(true), SignInAttempt(email, password), ErrorToast(WrongCredentials), SetLoading(false)]
  }

  /** After the handler: without auth the flag is untouched and no attempt is
      made; with auth, the flag ends true exactly when the attempt succeeded. */
  lemma SignInLoading(loading: bool, authPresent: bool, email: string, password: string, succeeded: bool)
    ensures !authPresent ==>
      LoadingAfter(loading, SignInEffects(authPresent, email, password, succeeded)) == loading &&
      !Attempted(SignInEffects(authPresent, email, password, succeeded))
    ensures authPresent ==>
      LoadingAfter(loading, SignInEffects(authPresent, email, password, succeeded)) == succeeded &&
      Attempted(SignInEffects(authPresent, email, password, succeeded))
  {
    var effects := SignInEffects(authPresent, email, password, succeeded);
    if authPresent {
      assert effects[1].SignInAttempt?;
      var tail := effects[2..];
      assert LoadingAfter(loading, effects) == LoadingAfter(true, effects[1..]);
      assert LoadingAfter(true, effects[1..]) == LoadingAfter(true, tail) by {
        assert effects[1..][1..] == tail;
      }
      if succeeded {
        assert tail[1..] == [];
        assert LoadingAfter(true, tail) == LoadingAfter(true, []);
      } else {
        assert tail[1..] == [SetLoading(false)] && tail[1..][1..] == [];
        assert LoadingAfter(true, tail) == LoadingAfter(true, tail[1..]);
        assert LoadingAfter(true, tail[1..]) == LoadingAfter(false, []);
      }
    }
  }

  /** The submit button is disabled exactly while signing in. */
  predicate SubmitDisabled(isLoading: bool) {
    isLoading
  }

  /** After a submit from an enabled button, the button is disabled again
      exactly when auth was present and the sign-in succeeded. */
  lemma SubmitDisabledAfterSignIn(authPresent: bool, email: string, password: string, succeeded: bool)
    ensures SubmitDisabled(LoadingAfter(false, SignInEffects(authPresent, email, password, succeeded))) <==>
      authPresent && succeeded
  {
    SignInLoading(false, authPresent, email, password, succeeded);
  }

  /** The page's state cells and the effects performed so far. */
  class LoginPage {
    var email: string
    var password: string
    var isLoading: bool
    var effects: seq<LoginEffect>

    constructor ()
      ensures email == "" && password == "" && !isLoading && effects == []
    {
      email := "";
      password := "";
      isLoading := false;
      effects := [];
    }

    method OnEmailChange(value: string)
      modifies this
      ensures email == value && password == old(password) && isLoading == old(isLoading) && effects == old(effects)
    {
      email := value;
    }

    method OnPasswordChange(value: string)
      modifies this
      ensures password == value && email == old(email) && isLoading == old(isLoading) && effects == old(effects)
    {
      password := value;
    }

    /** `handleSignIn`; `signInSucceeds` is whether the sign-in call
        resolves. The button is disabled while loading, so a submit needs
        `isLoading` false. */
    method HandleSignIn(authPresent: bool, signInSucceeds: bool)
      requires !isLoading
      modifies this
      ensures effects == old(effects) + SignInEffects(authPresent, email, password, signInSucceeds)
      ensures isLoading == LoadingAfter(old(isLoading), SignInEffects(authPresent, email, password, signInSucceeds))
      ensures email == old(email) && password == old(password)
    {
      SignInLoading(isLoading, authPresent, email, password, signInSucceeds);
      if !authPresent {
        effects := effects + [ErrorToast(AuthUnavailable)];
        return;
      }
      isLoading := true;
      effects := effects + [SetLoading(true)];
      effects := effects + [SignInAttempt(email, password)];
      if signInSucceeds {
        effects := effects + [InfoToast(SigningIn)];
      } else {
        effects := effects + [ErrorToast(WrongCredentials)];
        isLoading := false;
        effects := effects + [SetLoading(false)];
      }
    }
  }
}
