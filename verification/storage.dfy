/** The browser-side session store the mock authentication writes to:
    the cookie jar (written by sign-up through js-cookie, sent with every
    request and read by the middleware) and `localStorage` (written by
    sign-in, cleared by sign-out, read by the navigation bar and the page
    guards). The two are independent: nothing copies one into the other. */
module Storage {
  import opened Wrappers

  /** The key, in both stores, of the logged-in marker. */
  const IsLoggedInKey: string := "isLoggedIn"
  /** The key, in both stores, of the signed-in e-mail address. */
  const UserEmailKey: string := "userEmail"

  /** A cookie as js-cookie stores it: its value and its lifetime in days
      (the lifetime is recorded, not enforced: there is no clock here). */
  datatype Cookie = Cookie(value: string, expiresInDays: nat)

  class SessionStore {
    var cookies: map<string, Cookie>
    var local: map<string, string>

    constructor (cookies: map<string, Cookie>, local: map<string, string>)
      ensures this.cookies == cookies && this.local == local
    {
      this.cookies := cookies;
      this.local := local;
    }
  }

  /** `localStorage.getItem(key)`: the stored string, or nothing (`null`). */
  function GetItem(local: map<string, string>, key: string): (r: Option<string>)
    ensures r.Some? <==> key in local
    ensures r.Some? ==> r.value == local[key]
  {
    if key in local then Some(local[key]) else None
  }

  /** `localStorage.getItem("isLoggedIn") === "true"`: the test every
      client-side reader of the marker uses. A missing key (`null`) and
      every other string count as logged out. */
  predicate LocalLoggedIn(local: map<string, string>) {
    GetItem(local, IsLoggedInKey) == Some("true")
  }

  /** The `Cookie` header the browser sends: each cookie's name and value. */
  function RequestCookies(jar: map<string, Cookie>): (r: map<string, string>)
    ensures r.Keys == jar.Keys
    ensures forall name :: name in r ==> r[name] == jar[name].value
  {
    map name | name in jar :: jar[name].value
  }
}
