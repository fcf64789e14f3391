/** The client-side page guard that each protected page carries its own
    copy of: the `useAuth` hook (two flags set from localStorage after the
    page mounts), an effect that navigates away when the check failed, and
    a render choice between a "Checking authentication..." placeholder and
    the page's content. The copies differ only in where they send a
    logged-out visitor and in the page's own button. */
module Guard {
  import opened Wrappers
  import opened Storage

  /** What a page shows. */
  datatype Screen = Placeholder | Content

  /** The per-page constants: the page's own path, where the redirect
      effect sends a logged-out visitor, and where the page's one handler
      (submit, back or order button) navigates, if it has one. */
  datatype PageSpec = PageSpec(route: string, loggedOutTarget: string, action: Option<string>)

  /** The state `useAuth` keeps. */
  class AuthHook {
    var isLoggedIn: bool
    var isLoading: bool

    /** The `useState` initial values: loading, not logged in. */
    constructor ()
      ensures isLoading && !isLoggedIn
    {
      isLoggedIn, isLoading := false, true;
    }

    /** The mount effect: read the marker, then stop loading. */
    method Check(store: SessionStore)
      modifies this
      ensures !isLoading
      ensures isLoggedIn == LocalLoggedIn(store.local)
    {
      isLoggedIn := LocalLoggedIn(store.local);
      isLoading := false;
    }
  }

  /** The redirect effect: navigate to the page's logged-out target exactly
      when the check has finished and found no session. */
  function RedirectEffect(spec: PageSpec, isLoading: bool, isLoggedIn: bool): (nav: Option<string>)
    ensures nav.Some? <==> !isLoading && !isLoggedIn
    ensures nav.Some? ==> nav.value == spec.loggedOutTarget
  {
    if !isLoading && !isLoggedIn then Some(spec.loggedOutTarget) else None
  }

  /** The render gate: content only once the check has found a session. */
  function View(isLoading: bool, isLoggedIn: bool): (s: Screen)
    ensures s == Content <==> !isLoading && isLoggedIn
  {
    if isLoading || !isLoggedIn then Placeholder else Content
  }

  /** Before the check the page shows the placeholder and does not move. */
  lemma InitialRender(spec: PageSpec)
    ensures View(true, false) == Placeholder
    ensures RedirectEffect(spec, true, false) == None
  {
  }

  /** While loading nothing navigates, whatever the flag says. */
  lemma NoRedirectWhileLoading(spec: PageSpec, isLoggedIn: bool)
    ensures RedirectEffect(spec, true, isLoggedIn) == None
  {
  }

  /** After the check exactly one thing happens: the content is shown, or
      the page navigates to its logged-out target; never both, never neither. */
  lemma ContentOrRedirectAfterCheck(spec: PageSpec, local: map<string, string>)
    ensures var loggedIn := LocalLoggedIn(local);
            (View(false, loggedIn) == Content) != RedirectEffect(spec, false, loggedIn).Some?
  {
  }

  /** A page is never both showing content and navigating away. */
  lemma ContentNeverRedirects(spec: PageSpec, isLoading: bool, isLoggedIn: bool)
    requires View(isLoading, isLoggedIn) == Content
    ensures RedirectEffect(spec, isLoading, isLoggedIn) == None
  {
  }

  /** One visit to a guarded page: the first render (before the effect),
      the mount check, and the render and redirect that follow. */
  method Visit(spec: PageSpec, store: SessionStore) returns (first: Screen, screen: Screen, nav: Option<string>)
    ensures first == Placeholder
    ensures LocalLoggedIn(store.local) ==> screen == Content && nav == None
    ensures !LocalLoggedIn(store.local) ==> screen == Placeholder && nav == Some(spec.loggedOutTarget)
  {
    var auth := new AuthHook();
    first := View(auth.isLoading, auth.isLoggedIn);
    auth.Check(store);
    screen := View(auth.isLoading, auth.isLoggedIn);
    nav := RedirectEffect(spec, auth.isLoading, auth.isLoggedIn);
  }
}
