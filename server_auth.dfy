// Server-side admin check: the ID token is taken from the `Authorization`
// header, verified by the Admin SDK (a parameter here) and accepted only
// with the strict `admin` claim; plus the reuse-by-name app registry.
module ServerAuth {
  import opened Results
  import opened Strings
  import Provider

  const BearerPrefix: string := "Bearer "

  /** The token text: only a header starting with exactly "Bearer " (case
      sensitive, one space) has one, and it is `split('Bearer ')[1]`, the
      text up to any later "Bearer ". */
  function BearerToken(authorization: Option<string>): (token: Option<string>)
    ensures token.Some? <==> authorization.Some? && StartsWith(authorization.value, BearerPrefix)
    ensures token.Some? ==> token == SplitSecond(authorization.value, BearerPrefix)
  {
    if authorization.Some? && StartsWith(authorization.value, BearerPrefix) then
      assert OccursAt(authorization.value, BearerPrefix, 0);
      SplitSecond(authorization.value, BearerPrefix)
    else None
  }

  /** A header made of the prefix and a token without "Bearer " in it yields
      that token. */
  lemma BearerTokenOfWellFormedHeader(t: string)
    requires forall j: nat :: !OccursAt(t, BearerPrefix, j)
    ensures BearerToken(Some(BearerPrefix + t)) == Some(t)
  {
    var h := BearerPrefix + t;
    assert FirstFrom(h, BearerPrefix, 0, 0);
    forall j: nat | 7 <= j ensures !OccursAt(h, BearerPrefix, j) {
      if OccursAt(h, BearerPrefix, j) {
        assert h[j..j + 7] == t[j - 7..j];
        assert OccursAt(t, BearerPrefix, j - 7);
      }
    }
    assert h[7..] == t;
  }

  /** Split semantics cut the token at a second "Bearer ". */
  lemma BearerTokenStopsAtSecondPrefix()
    ensures BearerToken(Some("Bearer abcBearer xyz")) == Some("abc")
  {
    var h := "Bearer abcBearer xyz";
    assert h[..7] == BearerPrefix && h[10..17] == BearerPrefix;
    assert FirstFrom(h, BearerPrefix, 0, 0);
    assert NextAfter(h, BearerPrefix, 0, 10) by {
      forall j: nat | 7 <= j < 10 ensures !OccursAt(h, BearerPrefix, j) {
        assert j + 7 <= |h| ==> h[j..j + 7][0] == h[j] != 'B';
      }
    }
    assert h[7..10] == "abc";
  }

  /** A lower-case scheme is not recognised. */
  lemma LowerCaseSchemeRejected(t: string)
    ensures BearerToken(Some("bearer " + t)).None?
  {
    assert ("bearer " + t)[0] != 'B';
  }

  /** What `verifyIdToken` returns: the uid and the `admin` claim. */
  datatype DecodedToken = DecodedToken(uid: string, admin: Option<Provider.ClaimValue>)

  /** `getAdminAuthUser`'s result for the header `authorization`, with
      `verify` standing for `verifyIdToken`: the decoded token when it
      carries `admin === true`, and null otherwise, including when
      verification throws. */
  function AdminAuthUser(authorization: Option<string>, verify: string -> Outcome<DecodedToken>): (r: Option<DecodedToken>)
    ensures BearerToken(authorization).None? ==> r.None?
    ensures r.Some? ==>
      BearerToken(authorization).Some? &&
      verify(BearerToken(authorization).value) == Ok(r.value) &&
      r.value.admin == Some(Provider.ClaimBool(true))
    ensures
      (BearerToken(authorization).Some? && verify(BearerToken(authorization).value).Ok? &&
       verify(BearerToken(authorization).value).value.admin == Some(Provider.ClaimBool(true))) ==> r.Some?
  {
    match BearerToken(authorization)
    case None => None
    case Some(idToken) =>
      match verify(idToken)
      case Thrown(_) => None
      case Ok(decoded) => if decoded.admin == Some(Provider.ClaimBool(true)) then Some(decoded) else None
  }

  /** Without a usable header the verifier is never consulted: the answer is
      the same whatever `verifyIdToken` would do. */
  lemma NoHeaderNoVerification(authorization: Option<string>,
                               v1: string -> Outcome<DecodedToken>, v2: string -> Outcome<DecodedToken>)
    requires BearerToken(authorization).None?
    ensures AdminAuthUser(authorization, v1) == AdminAuthUser(authorization, v2) == None
  {
  }

  /** An initialised Admin SDK app. */
  datatype App = App(name: string, credential: string)

  const ServerAuthAppName: string := "firebase-admin-app-server-auth"
  const DefaultCredential: string := "applicationDefault"

  /** No two registered apps share a name. */
  predicate DistinctNames(apps: seq<App>) {
    forall i, j :: 0 <= i < j < |apps| ==> apps[i].name != apps[j].name
  }

  /** The first registered app with `name`, if any. */
  function FindApp(apps: seq<App>, name: string): (r: Option<App>)
    ensures r.Some? ==> r.value in apps && r.value.name == name
    ensures r.None? <==> forall a :: a in apps ==> a.name != name
  {
    if apps == [] then None
    else if apps[0].name == name then Some(apps[0])
    else FindApp(apps[1..], name)
  }

  /** The process-wide list of initialised apps (`getApps()`). */
  class AppRegistry {
    var apps: seq<App>

    constructor ()
      ensures apps == []
    {
      apps := [];
    }

    /** Returns the app named `name`, initialising it only when none has
        that name yet: names stay distinct, and a second call adds nothing. */
    method GetAdminApp(name: string) returns (app: App)
      modifies this
      ensures app.name == name && app in apps
      ensures FindApp(old(apps), name).Some? ==> apps == old(apps) && app == FindApp(old(apps), name).value
      ensures FindApp(old(apps), name).None? ==> apps == old(apps) + [app] && app == App(name, DefaultCredential)
      ensures DistinctNames(old(apps)) ==> DistinctNames(apps)
    {
      var existing := FindApp(apps, name);
      if existing.Some? {
        return existing.value;
      }
      app := App(name, DefaultCredential);
      apps := apps + [app];
    }

    /** `getAdminAuthUser`: the app is looked up or initialised first, then
        the header is read and the token verified. */
    method GetAdminAuthUser(authorization: Option<string>, verify: string -> Outcome<DecodedToken>)
      returns (r: Option<DecodedToken>)
      modifies this
      ensures r == AdminAuthUser(authorization, verify)
      ensures FindApp(old(apps), ServerAuthAppName).Some? ==> apps == old(apps)
      ensures FindApp(old(apps), ServerAuthAppName).None? ==> apps == old(apps) + [App(ServerAuthAppName, DefaultCredential)]
      ensures FindApp(apps, ServerAuthAppName).Some?
      ensures DistinctNames(old(apps)) ==> DistinctNames(apps)
    {
      var adminApp := GetAdminApp(ServerAuthAppName);
      var idToken := BearerToken(authorization);
      if idToken.Some? {
        var outcome := verify(idToken.value);
        match outcome {
          case Thrown(_) =>
            return None;
          case Ok(decoded) =>
            if decoded.admin == Some(Provider.ClaimBool(true)) {
              return Some(decoded);
            }
        }
      }
      return None;
    }
  }
}
