/** The editor route's auth gate: what it renders and whether it redirects,
    as a function of the auth provider's loading flag and user. */
module Editor {

  import opened Common

  /** What the route renders: the loading spinner, nothing, or the editor layout. */
  datatype Screen = Spinner | Blank | Workspace

  /** The render together with the navigation its effect performs, if any. */
  datatype Outcome = Outcome(screen: Screen, redirect: Option<string>)

  function Gate(loading: bool, user: Option<User>): (o: Outcome)
    ensures loading ==> o.screen == Spinner && o.redirect.None?
    ensures !loading && user.None? ==> o.screen == Blank && o.redirect == Some(AuthRoute)
    ensures !loading && user.Some? ==> o.screen == Workspace && o.redirect.None?
  {
    var redirect := if !loading && user.None? then Some(AuthRoute) else None;
    var screen := if loading then Spinner else if user.None? then Blank else Workspace;
    Outcome(screen, redirect)
  }

  /** The editor layout shows exactly when loading is over and a user is signed in. */
  lemma WorkspaceIffSignedIn(loading: bool, user: Option<User>)
    ensures Gate(loading, user).screen == Workspace <==> !loading && user.Some?
  {
  }

  /** The route redirects exactly when loading is over with no user, and then
      renders nothing: no frame of the editor precedes the redirect. */
  lemma RedirectIffAnonymous(loading: bool, user: Option<User>)
    ensures Gate(loading, user).redirect.Some? <==> !loading && user.None?
    ensures Gate(loading, user).redirect.Some? ==> Gate(loading, user).screen == Blank
  {
  }

  /** Unlike this gate, the profile and settings pages' mount effect does not
      wait for the provider: with the provider still loading and no user yet,
      they redirect while the editor shows its spinner. */
  lemma PagesRedirectWhileProviderLoads()
    ensures Gate(true, None).redirect.None?
    ensures OnMount(None) == RedirectTo(AuthRoute)
  {
  }
}
