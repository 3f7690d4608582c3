/** The root layout's gate and redirect rule: nothing is routed until the
    initial auth check and the fonts are done; then a signed-out user outside
    the "(auth)" group is sent there, and a signed-in user inside it is sent
    to "(tabs)". */
module Layout {
  import opened AuthState
  import AuthStore

  const AuthGroup: string := "(auth)"
  const TabsGroup: string := "(tabs)"
  const AuthHref: string := "/(auth)"
  const TabsHref: string := "/(tabs)"

  /** What the navigation effect does: nothing, or `router.replace(href)`. */
  datatype Decision = Stay | Replace(href: string)

  /** What the layout renders: the loading placeholder or the navigator. */
  datatype Screen = Placeholder | Navigator

  /** `!!(user && token)`. */
  predicate IsSignedIn(user: JsValue, token: Option<string>) {
    Truthy(user) && TokenTruthy(token)
  }

  /** `segments[0] === "(auth)"`; an empty route has no first segment. */
  predicate InAuthScreen(segments: seq<string>) {
    |segments| > 0 && segments[0] == AuthGroup
  }

  /** The navigation effect's decision. */
  function Redirect(isReady: bool, fontsLoaded: bool, signedIn: bool, segments: seq<string>): (d: Decision)
    // nothing moves before both flags are up
    ensures !(isReady && fontsLoaded) ==> d == Stay
    // the two redirects and when each happens
    ensures d == Replace(AuthHref) <==> isReady && fontsLoaded && !signedIn && !InAuthScreen(segments)
    ensures d == Replace(TabsHref) <==> isReady && fontsLoaded && signedIn && InAuthScreen(segments)
    // no other target
    ensures d.Replace? ==> d.href == AuthHref || d.href == TabsHref
  {
    if !isReady || !fontsLoaded then Stay
    else if !signedIn && !InAuthScreen(segments) then Replace(AuthHref)
    else if signedIn && InAuthScreen(segments) then Replace(TabsHref)
    else Stay
  }

  /** The route segments after `router.replace(href)` to one of the groups. */
  function Landing(href: string): (segments: seq<string>)
    ensures InAuthScreen(segments) <==> href == AuthHref
  {
    if href == AuthHref then [AuthGroup] else [TabsGroup]
  }

  /** Once the session and the flags are settled, a redirect is applied at
      most once: on the route it leads to, the rule stays put. */
  lemma RedirectSettles(isReady: bool, fontsLoaded: bool, signedIn: bool, segments: seq<string>)
    ensures var d := Redirect(isReady, fontsLoaded, signedIn, segments);
            d.Replace? ==> Redirect(isReady, fontsLoaded, signedIn, Landing(d.href)) == Stay
  {
  }

  /** Signed in and already in the app, or signed out and already on the
      auth screens: no redirect. */
  lemma AlreadyWhereItBelongs(isReady: bool, fontsLoaded: bool, signedIn: bool, segments: seq<string>)
    requires signedIn != InAuthScreen(segments)
    ensures Redirect(isReady, fontsLoaded, signedIn, segments) == Stay
  {
  }

  /** `if (!fontsLoaded || !isReady)` render the placeholder. */
  function Render(fontsLoaded: bool, isReady: bool): (s: Screen)
    ensures s == Navigator <==> fontsLoaded && isReady
  {
    if !fontsLoaded || !isReady then Placeholder else Navigator
  }

  /** A redirect is only ever issued while the navigator is on screen. */
  lemma RedirectOnlyUnderNavigator(isReady: bool, fontsLoaded: bool, signedIn: bool, segments: seq<string>)
    requires Redirect(isReady, fontsLoaded, signedIn, segments) != Stay
    ensures Render(fontsLoaded, isReady) == Navigator
  {
  }

  /** The session is not always "signed in" after a successful
      `register`/`login`: a payload whose `user` claim is null gives a token
      without a truthy user, and the layout sends the user to "(auth)". */
  lemma SuccessWithNullUserIsSignedOut(st: State, token: string, segments: seq<string>)
    requires !InAuthScreen(segments)
    ensures var r := Authenticate(st, Ok(token), Decoded(Payload(Null)));
            r.outcome.Success? &&
            r.state.session.token == Some(token) &&
            !IsSignedIn(r.state.session.user, r.state.session.token) &&
            Redirect(true, true, IsSignedIn(r.state.session.user, r.state.session.token), segments) == Replace(AuthHref)
  {
  }

  /** The root layout's own state: the readiness flag, and the store it
      reads. */
  class RootLayout {
    const store: AuthStore.AuthStore
    var isReady: bool

    /** `isReady` is only up once the initial auth check has completed. */
    ghost predicate Valid()
      reads this, store
    {
      isReady ==> !store.isCheckingAuth
    }

    constructor (store: AuthStore.AuthStore)
      ensures this.store == store && !isReady && Valid()
    {
      this.store := store;
      isReady := false;
    }

    /** The mount effect: `await checkAuth()`, then `setIsReady(true)`. */
    method Init(parse: Parser)
      modifies this, store
      ensures isReady && Valid()
      ensures store.Snapshot() == AuthState.CheckAuth(old(store.Snapshot()), parse)
    {
      store.CheckAuth(parse);
      isReady := true;
    }

    /** The navigation effect, run with the current flags, session and
        route. */
    method Navigate(fontsLoaded: bool, segments: seq<string>) returns (d: Decision)
      requires Valid()
      ensures d == Redirect(isReady, fontsLoaded, IsSignedIn(store.user, store.token), segments)
      ensures d != Stay ==> isReady && !store.isCheckingAuth && Render(fontsLoaded, isReady) == Navigator
    {
      if !isReady || !fontsLoaded {
        return Stay;
      }
      var inAuthScreen := |segments| > 0 && segments[0] == AuthGroup;
      var isSignedIn := Truthy(store.user) && TokenTruthy(store.token);
      if !isSignedIn && !inAuthScreen {
        d := Replace(AuthHref);
      } else if isSignedIn && inAuthScreen {
        d := Replace(TabsHref);
      } else {
        d := Stay;
      }
    }
  }
}
