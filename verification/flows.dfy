/** How the pieces meet. Sign-in writes only localStorage, sign-up only
    cookies, sign-out clears only localStorage; the gate reads only the
    cookie and the page guards only localStorage. These scenarios start
    from a visitor with empty stores and follow one form submission to
    what the gate and a page guard decide next. */
module Flows {
  import opened Wrappers
  import opened Storage
  import Middleware
  import SignIn
  import SignUp
  import Navigation
  import Guard

  /** Signing in with both fields filled, having been sent to sign-in from
      `path`. The form returns the visitor to `path`, and the page guards
      now see a session; but no cookie was written, so on a protected path
      the gate sends the visitor straight back to sign-in with the same
      return: a loop. */
  method SignInAlone(path: string, email: string, password: string)
    returns (nav: Option<string>, response: Middleware.Response, guardSees: bool)
    ensures email == "" || password == "" ==> nav == None && !guardSees
    ensures email != "" && password != "" ==> guardSees
    ensures email != "" && password != "" && path != "" ==> nav == Some(path)
    ensures !Middleware.IsPublicRoute(path) ==>
      response == Middleware.Redirect(Middleware.SignInRedirect("/signin", path))
  {
    var store := new SessionStore(map[], map[]);
    var form := new SignIn.SignInForm(map["redirect" := path]);
    form.email, form.password := email, password;
    nav := form.HandleSubmit(store);
    response := Middleware.Gate(path, RequestCookies(store.cookies));
    guardSees := LocalLoggedIn(store.local);
  }

  /** Signing up, having come from the guarded page `spec`. The cookie now
      lets the visitor past the gate, but localStorage is still empty: the
      page shows its placeholder and sends the visitor to sign-in. */
  method SignUpAlone(spec: Guard.PageSpec, email: string)
    returns (nav: Option<string>, response: Middleware.Response, screen: Guard.Screen, guardNav: Option<string>)
    ensures email == "" ==> nav == None
    ensures email != "" && spec.route != "" ==> nav == Some(spec.route)
    ensures email != "" ==> response == Middleware.Next
    ensures screen == Guard.Placeholder && guardNav == Some(spec.loggedOutTarget)
  {
    var store := new SessionStore(map[], map[]);
    var form := new SignUp.SignUpForm(map["redirect" := spec.route]);
    form.email := email;
    nav := form.HandleSubmit(store);
    response := Middleware.Gate(spec.route, RequestCookies(store.cookies));
    var first;
    first, screen, guardNav := Guard.Visit(spec, store);
  }

  /** Signing in, then opening a guarded page: the content is shown and
      the page stays. */
  method SignInThenVisit(spec: Guard.PageSpec, email: string, password: string)
    returns (screen: Guard.Screen, guardNav: Option<string>)
    ensures email != "" && password != "" ==> screen == Guard.Content && guardNav == None
    ensures email == "" || password == "" ==> screen == Guard.Placeholder && guardNav == Some(spec.loggedOutTarget)
  {
    var store := new SessionStore(map[], map[]);
    var form := new SignIn.SignInForm(map[]);
    form.email, form.password := email, password;
    var nav := form.HandleSubmit(store);
    var first;
    first, screen, guardNav := Guard.Visit(spec, store);
  }

  /** Signing in and signing up, then signing out from the navigation bar.
      The bar and the page guards see a signed-out visitor, but the cookie
      survives: the gate still lets every path through. */
  method SignOutKeepsCookie(email: string, password: string, path: string)
    returns (barLoggedIn: bool, guardSees: bool, response: Middleware.Response)
    ensures !barLoggedIn && !guardSees
    ensures email != "" ==> response == Middleware.Next
  {
    var store := new SessionStore(map[], map[]);
    var signIn := new SignIn.SignInForm(map[]);
    signIn.email, signIn.password := email, password;
    var nav := signIn.HandleSubmit(store);
    var signUp := new SignUp.SignUpForm(map[]);
    signUp.email := email;
    nav := signUp.HandleSubmit(store);
    var bar := new Navigation.NavigationBar();
    bar.Mount(store);
    var home := bar.SignOut(store);
    barLoggedIn := bar.isLoggedIn;
    guardSees := LocalLoggedIn(store.local);
    response := Middleware.Gate(path, RequestCookies(store.cookies));
  }

  /** The gate's return parameter is the one the sign-in form follows:
      a redirected visitor who signs in is sent back to the path asked for. */
  lemma GateRedirectReturnsThroughSignIn(path: string, cookies: map<string, string>)
    requires Middleware.Gate(path, cookies).Redirect?
    ensures var loc := Middleware.Gate(path, cookies).location;
            loc.path == "/signin" &&
            (path != "" ==> SignIn.RedirectTarget(map["redirect" := loc.redirect]) == path)
  {
  }
}
