# Logerchain access control, modelled in Dafny

Logerchain is a Next.js site for booking and tracking vessel and truck
cargo. Its authentication is a mock, and it has two independent layers:

- **Edge middleware** (`middleware.ts`). It lets a request through when the
  path is in a small public table or under one of its entries, or when the
  `isLoggedIn` cookie is `"true"`. Otherwise it redirects to `/signin` and
  passes the requested path as the `redirect` parameter. A matcher keeps
  asset paths away from it.
- **Client guards.** Each protected page carries its own copy of a
  `useAuth` hook that reads `isLoggedIn` from `localStorage` after mount.
  While loading or logged out, the page shows a "Checking
  authentication..." placeholder. Once the check has failed, it pushes the
  visitor to sign-in.

Sign-in writes only `localStorage`. Sign-up writes only cookies, each with a
7-day lifetime. Sign-out in the navigation bar clears only `localStorage`.
The model states each layer's decisions and proves how they combine:

- after sign-in alone, the gate still refuses every protected path and
  sends the visitor back to sign-in, in a loop;
- after sign-up alone, the gate lets the visitor through but every client
  guard bounces them;
- sign-out leaves the cookie, so the gate keeps letting the visitor through.

Modules, one per source file or concern:

- `Wrappers`: `Option`.
- `Uri`: `encodeURIComponent` and strict `decodeURIComponent` in full (UTF-8,
  upper-case hex), with the decode-after-encode round trip proved.
- `Storage`: the cookie jar and `localStorage` as a `SessionStore` class of
  two maps.
- `Middleware`: `middleware.ts`.
- `SignIn`, `SignUp`: the two forms as classes.
- `Navigation`: the navigation bar as a class.
- `Guard`: the `useAuth` hook, the redirect effect and the render gate
  shared by the page copies.
- `Routes` and one module per guarded page: each page's constants, with
  lemmas about where each page sends its visitors.
- `OrderConfirmation`: the ordinal day suffix, the date labels and the
  tracking-date offsets.
- `Flows`: scenarios that combine the forms, the gate and the guards.

Sign-in follows its `redirect` parameter. The comment at middleware.ts:33-34
says users land on the home page after sign-in; the code at
app/signin/page.tsx:18 and 34 sends them to the return target, and the model
follows the code.

## Model

| member | source | states |
|---|---|---|
| Uri.EncodeUriComponent | app/signin/page.tsx:78 | the encoding holds only unreserved characters, `%` and upper-case hex digits, and is at least as long as its input |
| Uri.DecodeUriComponent | app/signin/page.tsx:18 | strict `decodeURIComponent`, the reader the model uses for the `redirect` value: each `%XX` run is one well-formed, shortest-form UTF-8 sequence turned back into its character, and anything else is rejected; `Uri.DecodeEncode` proves it inverts the encoder |
| Uri.DecodeEncode | app/signin/page.tsx:78 | decoding an encoded string gives back exactly that string, for every string |
| Uri.EncodeInjective | app/signin/page.tsx:78 | two different strings never encode to the same text |
| Uri.WithRedirect | app/signin/page.tsx:78 | the `${path}?redirect=${encodeURIComponent(target)}` template the links and the booking pages build |
| Uri.RedirectOf | app/signin/page.tsx:18 | the decoded `redirect` value of an address with that single parameter, or none when the address does not begin with `path?redirect=` or the value does not decode |
| Uri.RedirectRoundTrip | app/signup/page.tsx:79 | an address `path?redirect=<encoded target>` hands the target back unchanged when its `redirect` parameter is read |
| Uri.EncodeAppend | app/product/vessel/booking/page.tsx:40 | encoding works character by character: the encoding of a concatenation is the concatenation of the encodings |
| Uri.EncodeThreeSegments | app/product/vessel/booking/page.tsx:40 | in a path of unreserved segments, each `/` becomes `%2F` and the segments are kept |
| Uri.Utf8WellFormed | app/signin/page.tsx:78 | the UTF-8 bytes the encoder writes are well-formed: the lead byte gives the length, the rest are continuation bytes, the shortest form is used, and they combine back to the character |
| Storage.GetItem | app/product/vessel/booking/page.tsx:16 | `localStorage.getItem` returns a value exactly when the key is present, and then the stored value |
| Storage.LocalLoggedIn | app/product/vessel/booking/page.tsx:16 | the guards' marker test: `localStorage.getItem("isLoggedIn") === "true"` |
| Storage.RequestCookies | middleware.ts:28 | the request carries every cookie of the jar, by name and value |
| Middleware.PublicRoutesShape | middleware.ts:5-12 | the `publicRoutes` table: six entries, all absolute paths, with `/` first and the only one ending in `/` |
| Middleware.StartsWith | middleware.ts:20 | `path.startsWith(route)`: the path's first characters are the route |
| Middleware.CharAt | middleware.ts:20 | `path.charAt(i)`: the character at `i` as a one-character string, or `""` past the end |
| Middleware.RouteMatches | middleware.ts:17-20 | the `.some` callback: the path equals the route, or starts with it and is followed by `/`; `RouteMatchesBoundary` gives the closed form |
| Middleware.IsPublicRoute | middleware.ts:15-22 | `isPublicRoute`: some entry of the route table accepts the path; every entry is itself public |
| Middleware.AnyRouteMatches | middleware.ts:15-22 | the public-route test holds exactly when some entry of the table matches the path |
| Middleware.RouteMatchesBoundary | middleware.ts:18-20 | an entry matches a path exactly when the path equals it or continues it with `/` |
| Middleware.PublicRouteClosedForm | middleware.ts:5-22 | a path is public exactly when it is one of the six entries or starts with `//`, `/signin/`, `/signup/`, `/about/`, `/contact/` or `/product/` |
| Middleware.ProductSubtreeIsPublic | middleware.ts:11-20 | every path under `/product/` is public |
| Middleware.DoubleSlashIsPublic | middleware.ts:6-20 | every path whose second character is `/` is public through the `/` entry |
| Middleware.SingleSegmentProtected | middleware.ts:15-22 | a one-segment path that is not in the table is not public |
| Middleware.BoundaryExamplesOutside | middleware.ts:20 | `/aboutus`, `/productcatalog` and `/signinx` are not public |
| Middleware.AboutSubpathIsPublic | middleware.ts:20 | `/about/extra` is public |
| Middleware.VesselBookingIsPublic | middleware.ts:11-20 | `/product/vessel/booking` is public |
| Middleware.TruckingBookingIsPublic | middleware.ts:11-20 | `/product/trucking/booking` is public |
| Middleware.TruckingInfoIsPublic | middleware.ts:11-20 | `/product/trucking/info` is public |
| Middleware.RootRouteExamples | middleware.ts:6-20 | `//dashboard` is public; `/dashboard/analytics` is not |
| Middleware.CookieLoggedIn | middleware.ts:28 | the request counts as logged in exactly when its `isLoggedIn` cookie is present and reads `"true"` |
| Middleware.CookieValues | middleware.ts:28 | only a cookie whose value is exactly `"true"` counts; absent, `"false"`, `"1"`, `""` and `"True"` do not |
| Middleware.Gate | middleware.ts:24-42 | it redirects exactly when the path is not public and the cookie does not say logged in; the redirect goes to `/signin` with the pathname as `redirect` |
| Middleware.PublicPathIgnoresCookies | middleware.ts:31-41 | a public path passes whatever the cookies hold |
| Middleware.ProtectedPathNeedsCookie | middleware.ts:28-41 | a protected path passes exactly when the cookie says logged in |
| Middleware.GateScenarios | middleware.ts:24-42 | the gate's decision for the home page, the dashboard, a product page with and without the cookie, `/about/extra` and `/aboutus` |
| Middleware.PatternAt | middleware.ts:54 | one lookahead alternative matches at the start of the text, with `.` matching any character |
| Middleware.MatcherSelects | middleware.ts:54 | the matcher selects a path that starts with `/` and whose rest begins with none of `_next/static`, `_next/image`, `favicon.ico`, `images` |
| Middleware.Dispatch | middleware.ts:45-55 | a path the matcher does not select is served without the gate; every other path gets the gate's decision |
| Middleware.ExcludedPathsBypassGate | middleware.ts:45-55 | a path whose text after `/` begins with `_next/static`, `_next/image`, `favicon.ico` or `images` never reaches the gate |
| Middleware.MatcherLooseEdges | middleware.ts:54 | the lookahead needs no `/` after an alternative and reads `.` as any character, so `/imagesecret` and `/favicon-ico` also skip the gate |
| Middleware.MatcherSelectsPages | middleware.ts:54 | the dashboard and the home page are selected |
| SignIn.QueryOf | app/signin/page.tsx:12-18 | the parameters `useSearchParams` reports for a sign-in address: only `redirect`, present exactly when the address carries a decodable one, holding its decoded value |
| SignIn.RedirectTarget | app/signin/page.tsx:18 | the return target is the `redirect` value when present and not empty, otherwise `/`; it is never empty |
| SignIn.RedirectTargetOfParam | app/signin/page.tsx:18 | with a `redirect` parameter the target is its value (or `/` when it is empty); without one it is `/` |
| SignIn.SignedInLocal | app/signin/page.tsx:30-31 | after sign-in the marker is `"true"` and the address is stored; only those two keys are added and every other key is kept |
| SignIn.SignUpHref | app/signin/page.tsx:78 | the "Sign Up" link carries the same return target, which the sign-up page reads back unchanged |
| SignIn.SignInForm.constructor | app/signin/page.tsx:13-18 | empty fields and error; the return target read from the query |
| SignIn.SignInForm.HandleSubmit | app/signin/page.tsx:20-35 | with a field empty: the error message, no navigation and no write. Otherwise: the two localStorage writes, navigation to the return target, and no cookie written |
| SignUp.SignedUpCookies | app/signup/page.tsx:31-32 | sign-up adds the `isLoggedIn = "true"` and `userEmail` cookies with a 7-day lifetime, keeps every other cookie, and after it the gate's cookie test holds |
| SignUp.SignInHref | app/signup/page.tsx:79 | the "Sign In" link carries the same return target, which the sign-in page reads back unchanged |
| SignUp.SignUpForm.constructor | app/signup/page.tsx:14-18 | empty field and error; the return target read from the query |
| SignUp.SignUpForm.HandleSubmit | app/signup/page.tsx:20-36 | with the e-mail empty: the error message, no navigation and no write. Otherwise: the two cookies, navigation to the return target, and localStorage untouched |
| Navigation.DisplayName | components/navigation.tsx:92 | the shown name is the prefix of the address before its first `@`, or the whole address when it has none |
| Navigation.DisplayNameExamples | components/navigation.tsx:92 | `ana@example.com` shows `ana`; `ana` shows `ana`; `@example.com` shows nothing; `a@b@c` shows `a` |
| Navigation.SignedOutLocal | components/navigation.tsx:44-45 | sign-out removes the marker and the address and keeps every other key |
| Navigation.StoredEmail | components/navigation.tsx:23 | the stored address, or `""` when there is none |
| Navigation.NavigationBar.constructor | components/navigation.tsx:13-16 | logged out, no address, both menus closed |
| Navigation.NavigationBar.Mount | components/navigation.tsx:20-25 | the flag is the localStorage marker test and the address is the stored one |
| Navigation.NavigationBar.SignOut | components/navigation.tsx:43-51 | removes the two localStorage keys and clears the bar's session; closes the user menu; leaves the cookies and the cargo flag alone; navigates to `/` |
| Navigation.NavigationBar.ToggleUserDropdown | components/navigation.tsx:53-58 | flips the user menu; the cargo menu is closed only when the user menu was open |
| Navigation.NavigationBar.ToggleCargoDropdown | components/navigation.tsx:60-63 | flips only the cargo menu |
| Navigation.NavigationBar.UserMenuShown | components/navigation.tsx:85-96 | the user menu is on screen only while logged in and open |
| Navigation.NavigationBar.CargoMenuShown | components/navigation.tsx:96-114 | the cargo menu is on screen only inside a shown user menu and while its own flag is set |
| Navigation.NavigationBar.ClickOutside | components/navigation.tsx:28-35 | each rendered menu container that does not hold the click closes its own menu, independently; a click elsewhere leaves no menu shown, and a click in the cargo menu changes nothing |
| Guard.AuthHook.constructor | app/product/vessel/booking/page.tsx:12-13 | the hook starts loading and logged out |
| Guard.AuthHook.Check | app/product/vessel/booking/page.tsx:15-19 | after the mount check loading has ended and the flag is the localStorage marker test |
| Guard.RedirectEffect | app/product/vessel/booking/page.tsx:37-42 | the page navigates exactly when the check has ended and found no session, and then to its logged-out target |
| Guard.View | app/product/vessel/booking/page.tsx:45-61 | the content is rendered exactly when the check has ended and found a session; otherwise the placeholder |
| Guard.InitialRender | app/product/vessel/booking/page.tsx:12-45 | the first render shows the placeholder and does not navigate |
| Guard.NoRedirectWhileLoading | app/product/vessel/booking/page.tsx:38 | nothing navigates while loading, whatever the flag |
| Guard.ContentOrRedirectAfterCheck | app/product/vessel/booking/page.tsx:37-61 | after the check exactly one of two things happens: content or navigation |
| Guard.ContentNeverRedirects | app/product/vessel/booking/page.tsx:37-61 | a page showing content never navigates away |
| Guard.Visit | app/product/vessel/booking/page.tsx:11-61 | a visit shows the placeholder first; then content and no navigation when localStorage holds a session, otherwise the placeholder and navigation to the logged-out target |
| VesselBookingPage.SubmitTarget | app/product/vessel/booking/page.tsx:29-34 | submit goes to `/product/vessel/tracking` |
| VesselBookingPage.EncodedRoute | app/product/vessel/booking/page.tsx:40 | `encodeURIComponent` turns each `/` of the page's path into `%2F` and keeps the segments |
| VesselBookingPage.SignInTarget | app/product/vessel/booking/page.tsx:40 | the logged-out target is `/signin?redirect=%2Fproduct%2Fvessel%2Fbooking` |
| VesselBookingPage.SignInReturnsHere | app/product/vessel/booking/page.tsx:40 | the sign-in form reached through the logged-out target returns the visitor to this page |
| VesselBookingPage.OnlyTheClientGuardProtects | middleware.ts:11-20 | the gate passes this page whatever the cookies hold |
| TruckingBookingPage.SubmitTarget | app/product/trucking/booking/page.tsx:29-34 | submit goes to `/product/trucking/info` |
| TruckingBookingPage.EncodedRoute | app/product/trucking/booking/page.tsx:40 | `encodeURIComponent` turns each `/` of the page's path into `%2F` and keeps the segments |
| TruckingBookingPage.SignInTarget | app/product/trucking/booking/page.tsx:40 | the logged-out target is `/signin?redirect=%2Fproduct%2Ftrucking%2Fbooking` |
| TruckingBookingPage.SignInReturnsHere | app/product/trucking/booking/page.tsx:40 | the sign-in form reached through the logged-out target returns the visitor to this page |
| TruckingBookingPage.OnlyTheClientGuardProtects | middleware.ts:11-20 | the gate passes this page whatever the cookies hold |
| AnalyticsPage.SignInReturnsHome | app/dashboard/analytics/page.tsx:31 | the bare `/signin` target carries no return, so sign-in lands on `/` |
| AnalyticsPage.GateAlsoProtects | middleware.ts:24-42 | the dashboard is the one guarded page the gate also protects: without the cookie it redirects to sign-in with the dashboard path |
| TruckingInfoPage.BackTarget | app/product/trucking/info/page.tsx:78-80 | back goes to `/product/trucking` |
| TruckingInfoPage.SignInReturnsHome | app/product/trucking/info/page.tsx:85 | the bare `/signin` target carries no return, so sign-in lands on `/` |
| TruckingInfoPage.OnlyTheClientGuardProtects | middleware.ts:11-20 | the gate passes this page whatever the cookies hold |
| ShipDetailsPage.BackTarget | app/product/vessel/ship-details/page.tsx:77-79 | back goes to `/product/vessel/order-confirmation` |
| ShipDetailsPage.SignInReturnsHome | app/product/vessel/ship-details/page.tsx:84 | the bare `/signin` target carries no return, so sign-in lands on `/` |
| ShipDetailsPage.OnlyTheClientGuardProtects | middleware.ts:11-20 | the gate passes this page whatever the cookies hold |
| VesselTrackingPage.OrderTarget | app/product/vessel/tracking/page.tsx:27-29 | the order button goes to `/product/vessel/order-confirmation` |
| VesselTrackingPage.SignInReturnsHome | app/product/vessel/tracking/page.tsx:34 | the bare `/signin` target carries no return, so sign-in lands on `/` |
| VesselTrackingPage.OnlyTheClientGuardProtects | middleware.ts:11-20 | the gate passes this page whatever the cookies hold |
| TruckingProductPage.HandleBookingClick | app/product/trucking/page.tsx:27-33 | logged in: to `/product/trucking/booking`. Otherwise: to `/signin?redirect=%2Fproduct%2Ftrucking%2Fbooking`, which returns the visitor to the booking form after sign-in |
| TruckingProductPage.ClickBeforeAndAfterMount | app/product/trucking/page.tsx:11-33 | a click before the mount check takes the sign-in branch even for a signed-in visitor; after the check the click follows the localStorage marker |
| TruckingProductPage.NeverGated | middleware.ts:11-20 | the gate passes `/product/trucking` whatever the cookies hold |
| OrderConfirmation.SignInReturnsHome | app/product/vessel/order-confirmation/page.tsx:70 | the bare `/signin` target carries no return, so sign-in lands on `/` |
| OrderConfirmation.OnlyTheClientGuardProtects | middleware.ts:11-20 | the gate passes this page whatever the cookies hold |
| OrderConfirmation.DaySuffix | app/product/vessel/order-confirmation/page.tsx:53-65 | the suffix is always one of `st`, `nd`, `rd`, `th`, and it is `th` from 4 to 20 |
| OrderConfirmation.JsRem | app/product/vessel/order-confirmation/page.tsx:55 | JavaScript's `%`: the remainder has the dividend's sign and is smaller than the divisor in size |
| OrderConfirmation.DaySuffixIsOrdinal | app/product/vessel/order-confirmation/page.tsx:53-65 | on every day from 1 to 31 the suffix is the English ordinal suffix |
| OrderConfirmation.DaySuffixExamples | app/product/vessel/order-confirmation/page.tsx:53-65 | 1, 21 and 31 give `st`; 2 and 22 give `nd`; 3 and 23 give `rd`; 11, 12 and 13 give `th` |
| OrderConfirmation.DaySuffixBeyondMonths | app/product/vessel/order-confirmation/page.tsx:54-57 | past the days of a month the rule parts from English: 111 gets `st` |
| OrderConfirmation.Decimal | app/product/vessel/order-confirmation/page.tsx:50 | the day is printed as a non-empty string of digits with no leading zero |
| OrderConfirmation.DecimalRoundTrip | app/product/vessel/order-confirmation/page.tsx:50 | the printed day reads back as the same number |
| OrderConfirmation.FormatDate | app/product/vessel/order-confirmation/page.tsx:45-51 | `formatDate`: the weekday, `, `, the day's numeral, its suffix, a space and the month; `FormatDateRoundTrip` and `FormatDateInjective` show the label determines the date |
| OrderConfirmation.SplitAtComma | app/product/vessel/order-confirmation/page.tsx:45-51 | a label the reader splits is the weekday, `, ` and the rest, and the weekday holds no comma |
| OrderConfirmation.FormatDateRoundTrip | app/product/vessel/order-confirmation/page.tsx:45-51 | a label reads back as exactly the weekday, day and month it was made from (weekday names hold no comma) |
| OrderConfirmation.ParseDateLabelSound | app/product/vessel/order-confirmation/page.tsx:45-51 | every text the reader accepts is the label of the fields it reads |
| OrderConfirmation.FormatDateInjective | app/product/vessel/order-confirmation/page.tsx:45-51 | two different dates never share a label |
| OrderConfirmation.CalendarDay.AddDays | app/product/vessel/order-confirmation/page.tsx:37-43 | `setDate(getDate() + n)` moves the date by `n` days |
| OrderConfirmation.CalendarDay.Now | app/product/vessel/order-confirmation/page.tsx:37 | `new Date()` is a date on today's day number |
| OrderConfirmation.CalendarDay.CopyOf | app/product/vessel/order-confirmation/page.tsx:40-42 | `new Date(d)` is a separate date on the same day |
| OrderConfirmation.TrackingSchedule | app/product/vessel/order-confirmation/page.tsx:37-43 | confirmation is tomorrow; shipped and out for delivery are the confirmation day; delivery is five days after confirmation. Moving the delivery copy leaves the others alone |
| Flows.SignInAlone | app/signin/page.tsx:30-34 | after sign-in the guards see a session and the form returns the visitor to the path they came from; on a protected path the gate, which sees no cookie, sends them back to sign-in with the same path |
| Flows.SignUpAlone | app/signup/page.tsx:31-35 | after sign-up the gate lets the visitor through, but localStorage is empty, so a guarded page shows its placeholder and sends the visitor to its logged-out target |
| Flows.SignInThenVisit | app/dashboard/analytics/page.tsx:15-36 | after a sign-in with both fields filled a guarded page shows its content and stays; with a field empty it bounces |
| Flows.SignOutKeepsCookie | components/navigation.tsx:43-51 | after sign-in, sign-up and sign-out the bar and the guards see no session, but the cookie remains and the gate lets every path through |
| Flows.GateRedirectReturnsThroughSignIn | middleware.ts:35-38 | the gate's redirect goes to `/signin`, and its `redirect` value is the path the sign-in form returns to |

## Left out

- Rendering. JSX, Tailwind classes, images, icons and `Link` markup are not modelled. Only the placeholder-or-content choice is.
- The input `onChange` handlers. The model assigns the form fields directly.
- Cookie expiry. The 7-day lifetime is recorded on each cookie but never enforced, because there is no clock.
- The request's origin. The gate's redirect is a record of path `/signin` and parameter `redirect`, not a serialised URL. `URLSearchParams` form-encoding of that parameter is not modelled.
- Query reading. `useSearchParams` is modelled for addresses with a single `redirect` parameter, read with strict `decodeURIComponent`. The page's form decoding agrees with it on every value `encodeURIComponent` writes, which holds no `+` and only well-formed escapes.
- Browser form validation. The `required` and `type="email"` attributes on the sign-in and sign-up inputs stop an empty submit before `handleSubmit` runs; the model calls the handlers directly, so their empty-field branches, and the empty-field case of `Flows.SignInThenVisit`, stand for a submit that bypasses that validation.
- Uri.DecodeUriComponent: strict. It rejects a `%` not followed by two hex digits and a malformed UTF-8 sequence, where the form decoding behind `searchParams.get` keeps the `%` as text and writes U+FFFD. It also leaves `+` alone, where form decoding writes a space.
- Uri.RedirectOf: on a malformed escape the model reports no `redirect` value; the page reports the leniently decoded text. On `/signin?redirect=%ZZ` the page's target is `%ZZ`, the model's `/`.
- SignIn.QueryOf: inherits the gap from `Uri.RedirectOf`. A `redirect` value with a malformed escape is absent from the model's query map, and sign-in then lands on `/` instead of the raw text.
- Calendar arithmetic. Dates are day numbers, so month and year rollover is implicit.
- Locale formatting. The weekday and month names are inputs, and the order date line (`toLocaleDateString`) is not modelled.
- OrderConfirmation.DaySuffix: modelled on any integer. The page only ever passes 1 to 31.
- React effect scheduling. A visit is modelled as first render, mount check, then re-render and redirect effect.
- Navigation after `router.push`. The model returns the target; it does not load the next page.
- `TruckingProductPage` has no placeholder or redirect effect, because the page renders its content whatever the flag says. Only the booking button's branch is modelled.
- The `mousedown` listener registration and removal. A click target is one of three positions relative to the two menu containers.
- The static pages `app/page.tsx`, `app/about/page.tsx`, `app/contact/page.tsx`, `app/product/page.tsx`, `app/product/vessel/page.tsx` and `app/product/others/page.tsx` hold no access logic and are not part of this model.
- The mock order data and its literal totals.
- Security. The marker is unsigned and client-writable, so the model states decisions, not confidentiality.
