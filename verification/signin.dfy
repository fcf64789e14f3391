/** The sign-in page (`app/signin/page.tsx`): a form whose submission marks
    the user as logged in in `localStorage` only, then follows the return
    target it was given. */
module SignIn {
  import opened Wrappers
  import opened Storage
  import Uri

  /** The error the form shows when a field is empty. */
  const MissingCredentials: string := "Please enter both email and password"

  /** `searchParams.get("redirect") || "/"`: the `redirect` query value when
      it is present and not empty, otherwise the home page. The sign-up page
      computes its target with the same expression. */
  function RedirectTarget(query: map<string, string>): (r: string)
    ensures r != ""
    ensures "redirect" in query && query["redirect"] != "" ==> r == query["redirect"]
    ensures !("redirect" in query && query["redirect"] != "") ==> r == "/"
  {
    var value := GetItem(query, "redirect").GetOr("");
    if value != "" then value else "/"
  }

  /** A non-empty return target put into the query comes back unchanged;
      an empty one falls back to the home page. */
  lemma RedirectTargetOfParam(target: string)
    ensures RedirectTarget(map["redirect" := target]) == (if target == "" then "/" else target)
    ensures RedirectTarget(map[]) == "/"
  {
  }

  /** The query `useSearchParams` reports for an address `path` or
      `path?redirect=...`: the `redirect` value, decoded strictly, when there
      is one that decodes (see `Uri.RedirectOf` for malformed escapes). */
  function QueryOf(href: string, path: string): (q: map<string, string>)
    ensures q.Keys <= {"redirect"}
    ensures "redirect" in q <==> Uri.RedirectOf(href, path).Some?
    ensures "redirect" in q ==> q["redirect"] == Uri.RedirectOf(href, path).value
  {
    match Uri.RedirectOf(href, path)
    case Some(target) => map["redirect" := target]
    case None => map[]
  }

  /** The localStorage after a successful sign-in: the marker `"true"` and
      the e-mail address are written; every other key is kept. */
  function SignedInLocal(local: map<string, string>, email: string): (r: map<string, string>)
    ensures LocalLoggedIn(r)
    ensures GetItem(r, UserEmailKey) == Some(email)
    ensures r.Keys == local.Keys + {IsLoggedInKey, UserEmailKey}
    ensures forall key :: key != IsLoggedInKey && key != UserEmailKey ==> GetItem(r, key) == GetItem(local, key)
  {
    local[IsLoggedInKey := "true"][UserEmailKey := email]
  }

  /** The "Sign Up" link, which passes the same return target on. */
  function SignUpHref(redirectUrl: string): (r: string)
    ensures Uri.RedirectOf(r, "/signup") == Some(redirectUrl)
  {
    Uri.RedirectRoundTrip("/signup", redirectUrl);
    Uri.WithRedirect("/signup", redirectUrl)
  }

  /** The page's state: the two input fields, the error banner and the
      return target read from the query when the page was created. */
  class SignInForm {
    var email: string
    var password: string
    var error: string
    const redirectUrl: string

    constructor (query: map<string, string>)
      ensures email == "" && password == "" && error == ""
      ensures redirectUrl == RedirectTarget(query)
    {
      email, password, error := "", "", "";
      redirectUrl := RedirectTarget(query);
    }

    /** `handleSubmit`. With a field empty it only sets the error. Otherwise
        it writes the marker and the address to localStorage (no cookie)
        and navigates to the return target, leaving the error as it was. */
    method HandleSubmit(store: SessionStore) returns (nav: Option<string>)
      modifies this`error, store`local
      ensures email == "" || password == "" ==>
        error == MissingCredentials && nav == None && store.local == old(store.local)
      ensures email != "" && password != "" ==>
        error == old(error) && nav == Some(redirectUrl) &&
        store.local == SignedInLocal(old(store.local), email)
      ensures store.cookies == old(store.cookies)
    {
      if email == "" || password == "" {
        error := MissingCredentials;
        return None;
      }
      store.local := SignedInLocal(store.local, email);
      nav := Some(redirectUrl);
    }
  }
}
