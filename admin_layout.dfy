// The admin layout's gate: a loading screen while auth resolves, an
// "Access Denied" screen with a redirect to /login for anyone who is not an
// admin, and the admin panel otherwise; plus the sign-out handler.
module AdminLayout {
  import opened Results
  import opened Strings
  import Provider
  import Middleware

  datatype LayoutView = LoadingPanel | AccessDenied | AdminPanel

  /** Loading is checked first, then admin status; `user` and `userError`
      are not consulted. */
  function View(isAuthLoading: bool, isAdmin: bool): (v: LayoutView)
    ensures v == LoadingPanel <==> isAuthLoading
    ensures v == AdminPanel <==> !isAuthLoading && isAdmin
    ensures v == AccessDenied <==> !isAuthLoading && !isAdmin
  {
    if isAuthLoading then LoadingPanel
    else if !isAdmin then AccessDenied
    else AdminPanel
  }

  /** The effect's navigation: to /login exactly when the check is done and
      the user is not an admin, which is when "Access Denied" shows. */
  function RedirectTarget(isAuthLoading: bool, isAdmin: bool): (r: Option<string>)
    ensures r.Some? <==> View(isAuthLoading, isAdmin) == AccessDenied
    ensures r.Some? ==> r.value == Middleware.LoginPath
    ensures isAuthLoading ==> r.None?
  {
    if isAuthLoading then None
    else if !isAdmin then Some(Middleware.LoginPath)
    else None
  }

  /** A failed token fetch or a listener error is handled like any
      non-admin: the user is denied and sent to /login. */
  lemma AuthErrorIsDenied(s: Provider.UserAuthState, e: Provider.AuthEvent)
    requires e.ListenerError? || (e.SignedIn? && e.token.Thrown?)
    ensures View(Provider.Reduce(s, e).isAuthLoading, Provider.Reduce(s, e).isAdmin) == AccessDenied
    ensures RedirectTarget(Provider.Reduce(s, e).isAuthLoading, Provider.Reduce(s, e).isAdmin) == Some("/login")
  {
  }

  /** In any state reached from the initial one, the admin panel is shown
      only to a signed-in user. */
  lemma {:induction false} PanelOnlyForSignedIn(events: seq<Provider.AuthEvent>)
    ensures View(Provider.Run(Provider.InitialState(), events).isAuthLoading,
                 Provider.Run(Provider.InitialState(), events).isAdmin) == AdminPanel ==>
            Provider.Run(Provider.InitialState(), events).user.Some?
  {
    Provider.ReachableConsistent(Provider.InitialState(), events);
  }

  datatype LayoutEffect = SignOutCall | Navigate(path: string)

  /** `handleSignOut`: sign out first, then go to /login. `signOutSucceeds`
      says whether the awaited sign-out resolved; a rejection leaves the
      handler before the navigation. */
  function SignOutEffects(signOutSucceeds: bool): (effects: seq<LayoutEffect>)
    ensures |effects| >= 1 && effects[0] == SignOutCall
    ensures Navigate(Middleware.LoginPath) in effects <==> signOutSucceeds
    ensures !signOutSucceeds ==> effects == [SignOutCall]
    ensures signOutSucceeds ==> effects[|effects| - 1] == Navigate(Middleware.LoginPath)
    ensures forall i :: 0 <= i < |effects| - 1 ==> !effects[i].Navigate?
  {
    if signOutSucceeds then [SignOutCall, Navigate(Middleware.LoginPath)] else [SignOutCall]
  }

  /** After signing out, the listener reports no user and the layout denies
      access and redirects to /login. */
  lemma SignedOutIsDenied(s: Provider.UserAuthState)
    ensures View(Provider.Reduce(s, Provider.SignedOut).isAuthLoading,
                 Provider.Reduce(s, Provider.SignedOut).isAdmin) == AccessDenied
  {
  }

  const MenuHrefs: seq<string> := ["/admin", "/admin/bookings", "/admin/trends", "/admin/services", "/admin/products"]

  /** Every sidebar link lies under the middleware's matcher and is
      redirected to /login when the request has no token. */
  lemma MenuLinksAreGated(origin: string, search: string)
    ensures forall i :: 0 <= i < |MenuHrefs| ==> Middleware.MatcherMatches(MenuHrefs[i])
    ensures forall i :: 0 <= i < |MenuHrefs| ==>
      Middleware.Serve(Middleware.Url(origin, MenuHrefs[i], search), None).Redirect?
  {
    forall i | 0 <= i < |MenuHrefs|
      ensures Middleware.MatcherMatches(MenuHrefs[i])
      ensures Middleware.Serve(Middleware.Url(origin, MenuHrefs[i], search), None).Redirect?
    {
      if i > 0 {
        assert MenuHrefs[i][..7] == "/admin/";
      }
      Middleware.MatchedPathsAreGated(Middleware.Url(origin, MenuHrefs[i], search), None);
    }
  }
}
