/** The sign-up page (`app/signup/page.tsx`): a form whose submission sets
    the marker as cookies only, then follows the return target. */
module SignUp {
  import opened Wrappers
  import opened Storage
  import Uri
  import SignIn
  import Middleware

  /** The error the form shows when the e-mail field is empty. */
  const MissingEmail: string := "Please enter your email"

  /** The lifetime js-cookie gives both cookies, in days. */
  const CookieLifetimeDays: nat := 7

  /** The cookie jar after a successful sign-up: `isLoggedIn = "true"` and
      `userEmail = email`, each for seven days; every other cookie is kept. */
  function SignedUpCookies(jar: map<string, Cookie>, email: string): (r: map<string, Cookie>)
    ensures r.Keys == jar.Keys + {IsLoggedInKey, UserEmailKey}
    ensures r[IsLoggedInKey] == Cookie("true", CookieLifetimeDays)
    ensures r[UserEmailKey] == Cookie(email, CookieLifetimeDays)
    ensures Middleware.CookieLoggedIn(RequestCookies(r))
    ensures forall name :: name in jar && name != IsLoggedInKey && name != UserEmailKey ==> r[name] == jar[name]
  {
    jar[IsLoggedInKey := Cookie("true", CookieLifetimeDays)][UserEmailKey := Cookie(email, CookieLifetimeDays)]
  }

  /** The "Sign In" link, which passes the same return target on. */
  function SignInHref(redirectUrl: string): (r: string)
    ensures Uri.RedirectOf(r, "/signin") == Some(redirectUrl)
  {
    Uri.RedirectRoundTrip("/signin", redirectUrl);
    Uri.WithRedirect("/signin", redirectUrl)
  }

  class SignUpForm {
    var email: string
    var error: string
    const redirectUrl: string

    constructor (query: map<string, string>)
      ensures email == "" && error == ""
      ensures redirectUrl == SignIn.RedirectTarget(query)
    {
      email, error := "", "";
      redirectUrl := SignIn.RedirectTarget(query);
    }

    /** `handleSubmit`. With the e-mail empty it only sets the error.
        Otherwise it sets the two cookies (nothing in localStorage) and
        navigates to the return target, leaving the error as it was. */
    method HandleSubmit(store: SessionStore) returns (nav: Option<string>)
      modifies this`error, store`cookies
      ensures email == "" ==>
        error == MissingEmail && nav == None && store.cookies == old(store.cookies)
      ensures email != "" ==>
        error == old(error) && nav == Some(redirectUrl) &&
        store.cookies == SignedUpCookies(old(store.cookies), email)
      ensures store.local == old(store.local)
    {
      if email == "" {
        error := MissingEmail;
        return None;
      }
      store.cookies := SignedUpCookies(store.cookies, email);
      nav := Some(redirectUrl);
    }
  }
}
