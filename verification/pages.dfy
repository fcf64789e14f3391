/** The guarded pages, one module per page file. Each is an instance of the
    guard in `Guard`: its own path, where it sends a logged-out visitor, and
    where its one button leads. */

/** `app/product/vessel/booking/page.tsx`: the vessel booking form. */
module VesselBookingPage {
  import opened Wrappers
  import opened Guard
  import Routes
  import Uri
  import SignIn
  import Middleware

  /** Logged out: to sign-in with a return to this page. Submit: to tracking. */
  const Spec: PageSpec :=
    PageSpec(Routes.VesselBooking, Uri.WithRedirect(Routes.SignInPath, Routes.VesselBooking), Some(Routes.VesselTracking))

  /** `handleSubmit`: straight to tracking; the form fields are not checked. */
  lemma SubmitTarget()
    ensures Spec.action == Some("/product/vessel/tracking")
  {
  }

  /** Proof scaffolding, modelling nothing: spells the path out of its
      segments so that the encoder is never applied to a literal. */
  lemma RouteSpelled()
    ensures Routes.VesselBooking == "/" + Routes.ProductSegment + ("/" + Routes.VesselSegment + ("/" + Routes.BookingSegment + ""))
  {
  }

  /** The page's path as `encodeURIComponent` writes it. */
  lemma EncodedRoute()
    ensures Uri.EncodeUriComponent(Routes.VesselBooking) ==
      "%2F" + Routes.ProductSegment + ("%2F" + Routes.VesselSegment + ("%2F" + Routes.BookingSegment + ""))
  {
    RouteSpelled();
    Uri.EncodeThreeSegments(Routes.ProductSegment, Routes.VesselSegment, Routes.BookingSegment);
  }

  /** Proof scaffolding, modelling nothing: the encoded path as a literal,
      stated apart from the encoder. */
  lemma EncodedSpelled()
    ensures "%2F" + Routes.ProductSegment + ("%2F" + Routes.VesselSegment + ("%2F" + Routes.BookingSegment + "")) ==
      "%2Fproduct%2Fvessel%2Fbooking"
  {
  }

  /** The logged-out target is the address the page writes out. */
  lemma SignInTarget()
    ensures Spec.loggedOutTarget == "/signin?redirect=" + "%2Fproduct%2Fvessel%2Fbooking"
  {
    var encoded := Uri.EncodeUriComponent(Routes.VesselBooking);
    assert encoded == "%2Fproduct%2Fvessel%2Fbooking" by {
      EncodedRoute();
      EncodedSpelled();
    }
    assert Spec.loggedOutTarget == Routes.SignInPath + "?redirect=" + encoded;
    Routes.RedirectQuerySpelled();
  }

  /** The sign-in form reached through the logged-out target returns the
      visitor to this page. */
  lemma SignInReturnsHere()
    ensures SignIn.RedirectTarget(SignIn.QueryOf(Spec.loggedOutTarget, Routes.SignInPath)) == Routes.VesselBooking
  {
    Uri.RedirectRoundTrip(Routes.SignInPath, Routes.VesselBooking);
  }

  /** The gate lets this page through whatever the cookies hold: it lies
      under the public `/product` route, so only the client guard protects it. */
  lemma OnlyTheClientGuardProtects(cookies: map<string, string>)
    ensures Middleware.Gate(Spec.route, cookies) == Middleware.Next
  {
    Middleware.VesselBookingIsPublic();
  }
}

/** `app/product/trucking/booking/page.tsx`: the trucking booking form. */
module TruckingBookingPage {
  import opened Wrappers
  import opened Guard
  import Routes
  import Uri
  import SignIn
  import Middleware

  /** Logged out: to sign-in with a return to this page. Submit: to the
      shipment details. */
  const Spec: PageSpec :=
    PageSpec(Routes.TruckingBooking, Uri.WithRedirect(Routes.SignInPath, Routes.TruckingBooking), Some(Routes.TruckingInfo))

  /** `handleSubmit`: straight to the shipment details; the form fields are not checked. */
  lemma SubmitTarget()
    ensures Spec.action == Some("/product/trucking/info")
  {
  }

  /** Proof scaffolding, modelling nothing: spells the path out of its
      segments so that the encoder is never applied to a literal. */
  lemma RouteSpelled()
    ensures Routes.TruckingBooking == "/" + Routes.ProductSegment + ("/" + Routes.TruckingSegment + ("/" + Routes.BookingSegment + ""))
  {
  }

  /** The page's path as `encodeURIComponent` writes it. */
  lemma EncodedRoute()
    ensures Uri.EncodeUriComponent(Routes.TruckingBooking) ==
      "%2F" + Routes.ProductSegment + ("%2F" + Routes.TruckingSegment + ("%2F" + Routes.BookingSegment + ""))
  {
    RouteSpelled();
    Uri.EncodeThreeSegments(Routes.ProductSegment, Routes.TruckingSegment, Routes.BookingSegment);
  }

  /** Proof scaffolding, modelling nothing: the encoded path as a literal,
      stated apart from the encoder. */
  lemma EncodedSpelled()
    ensures "%2F" + Routes.ProductSegment + ("%2F" + Routes.TruckingSegment + ("%2F" + Routes.BookingSegment + "")) ==
      "%2Fproduct%2Ftrucking%2Fbooking"
  {
  }

  /** The logged-out target is the address the page writes out. */
  lemma SignInTarget()
    ensures Spec.loggedOutTarget == "/signin?redirect=" + "%2Fproduct%2Ftrucking%2Fbooking"
  {
    var encoded := Uri.EncodeUriComponent(Routes.TruckingBooking);
    assert encoded == "%2Fproduct%2Ftrucking%2Fbooking" by {
      EncodedRoute();
      EncodedSpelled();
    }
    assert Spec.loggedOutTarget == Routes.SignInPath + "?redirect=" + encoded;
    Routes.RedirectQuerySpelled();
  }

  /** The sign-in form reached through the logged-out target returns the
      visitor to this page. */
  lemma SignInReturnsHere()
    ensures SignIn.RedirectTarget(SignIn.QueryOf(Spec.loggedOutTarget, Routes.SignInPath)) == Routes.TruckingBooking
  {
    Uri.RedirectRoundTrip(Routes.SignInPath, Routes.TruckingBooking);
  }

  /** Under `/product`, so the gate never stops it. */
  lemma OnlyTheClientGuardProtects(cookies: map<string, string>)
    ensures Middleware.Gate(Spec.route, cookies) == Middleware.Next
  {
    Middleware.TruckingBookingIsPublic();
  }
}

/** `app/dashboard/analytics/page.tsx`: the analytics dashboard. */
module AnalyticsPage {
  import opened Wrappers
  import opened Guard
  import Routes
  import SignIn
  import Middleware

  /** Logged out: to the bare sign-in page. No navigating button. */
  const Spec: PageSpec := PageSpec(Routes.Analytics, Routes.SignInPath, None)

  /** The bare sign-in address carries no return: after signing in the
      visitor lands on the home page, not back here. */
  lemma SignInReturnsHome()
    ensures SignIn.RedirectTarget(SignIn.QueryOf(Spec.loggedOutTarget, Routes.SignInPath)) == Routes.Home
  {
  }

  /** The one guarded page outside `/product`: here the gate also protects,
      and it decides by the cookie alone, sending the visitor to sign-in
      with this path as the return. */
  lemma GateAlsoProtects(cookies: map<string, string>)
    ensures Middleware.Gate(Spec.route, cookies) ==
      if Middleware.CookieLoggedIn(cookies) then Middleware.Next
      else Middleware.Redirect(Middleware.SignInRedirect(Routes.SignInPath, Routes.Analytics))
  {
    Middleware.RootRouteExamples();
  }
}

/** `app/product/trucking/info/page.tsx`: the trucking shipment details. */
module TruckingInfoPage {
  import opened Wrappers
  import opened Guard
  import Routes
  import SignIn
  import Middleware

  /** Logged out: to the bare sign-in page. Back: to the trucking product page. */
  const Spec: PageSpec := PageSpec(Routes.TruckingInfo, Routes.SignInPath, Some(Routes.ProductTrucking))

  /** `handleBackClick`: back to the trucking product page. */
  lemma BackTarget()
    ensures Spec.action == Some("/product/trucking")
  {
  }

  /** No return is carried: sign-in lands on the home page. */
  lemma SignInReturnsHome()
    ensures SignIn.RedirectTarget(SignIn.QueryOf(Spec.loggedOutTarget, Routes.SignInPath)) == Routes.Home
  {
  }

  /** Under `/product`, so the gate never stops it. */
  lemma OnlyTheClientGuardProtects(cookies: map<string, string>)
    ensures Middleware.Gate(Spec.route, cookies) == Middleware.Next
  {
    Middleware.TruckingInfoIsPublic();
  }
}

/** `app/product/vessel/ship-details/page.tsx`: the vessel shipment details. */
module ShipDetailsPage {
  import opened Wrappers
  import opened Guard
  import Routes
  import SignIn
  import Middleware

  /** Logged out: to the bare sign-in page. Back: to the order confirmation. */
  const Spec: PageSpec := PageSpec(Routes.ShipDetails, Routes.SignInPath, Some(Routes.OrderConfirmation))

  /** `handleBackClick`: back to the order confirmation. */
  lemma BackTarget()
    ensures Spec.action == Some("/product/vessel/order-confirmation")
  {
  }

  /** No return is carried: sign-in lands on the home page. */
  lemma SignInReturnsHome()
    ensures SignIn.RedirectTarget(SignIn.QueryOf(Spec.loggedOutTarget, Routes.SignInPath)) == Routes.Home
  {
  }

  /** Under `/product`, so the gate never stops it. */
  lemma OnlyTheClientGuardProtects(cookies: map<string, string>)
    ensures Middleware.Gate(Spec.route, cookies) == Middleware.Next
  {
    Middleware.ProductSubtreeIsPublic(Spec.route);
  }
}

/** `app/product/vessel/tracking/page.tsx`: shipment tracking. */
module VesselTrackingPage {
  import opened Wrappers
  import opened Guard
  import Routes
  import SignIn
  import Middleware

  /** Logged out: to the bare sign-in page. Order: to the order confirmation. */
  const Spec: PageSpec := PageSpec(Routes.VesselTracking, Routes.SignInPath, Some(Routes.OrderConfirmation))

  /** `handleOrderClick`: on to the order confirmation. */
  lemma OrderTarget()
    ensures Spec.action == Some("/product/vessel/order-confirmation")
  {
  }

  /** No return is carried: sign-in lands on the home page. */
  lemma SignInReturnsHome()
    ensures SignIn.RedirectTarget(SignIn.QueryOf(Spec.loggedOutTarget, Routes.SignInPath)) == Routes.Home
  {
  }

  /** Under `/product`, so the gate never stops it. */
  lemma OnlyTheClientGuardProtects(cookies: map<string, string>)
    ensures Middleware.Gate(Spec.route, cookies) == Middleware.Next
  {
    Middleware.ProductSubtreeIsPublic(Spec.route);
  }
}

/** `app/product/trucking/page.tsx`: the trucking product page. It runs the
    same `useAuth` hook but renders its content at once, with no placeholder
    and no redirect effect; the flag only steers the booking button. */
module TruckingProductPage {
  import opened Storage
  import Guard
  import Routes
  import Uri
  import SignIn
  import Middleware
  import TruckingBookingPage

  /** `handleBookingClick`: straight to the booking form when the flag is
      set, otherwise to sign-in with a return to the booking form. */
  function HandleBookingClick(isLoggedIn: bool): (nav: string)
    ensures isLoggedIn ==> nav == Routes.TruckingBooking
    ensures !isLoggedIn ==> SignIn.RedirectTarget(SignIn.QueryOf(nav, Routes.SignInPath)) == Routes.TruckingBooking
    ensures !isLoggedIn ==> nav == "/signin?redirect=" + "%2Fproduct%2Ftrucking%2Fbooking"
  {
    if isLoggedIn then Routes.TruckingBooking
    else
      TruckingBookingPage.SignInTarget();
      TruckingBookingPage.SignInReturnsHere();
      Uri.WithRedirect(Routes.SignInPath, Routes.TruckingBooking)
  }

  /** A click before the mount effect has run, and one after it. Until the
      effect runs the flag is still `false`, so an early click goes to
      sign-in even for a signed-in visitor; after it the click follows the
      localStorage marker. */
  method ClickBeforeAndAfterMount(store: SessionStore) returns (early: string, late: string)
    ensures early == "/signin?redirect=" + "%2Fproduct%2Ftrucking%2Fbooking"
    ensures LocalLoggedIn(store.local) ==> late == Routes.TruckingBooking
    ensures !LocalLoggedIn(store.local) ==> late == early
  {
    var auth := new Guard.AuthHook();
    early := HandleBookingClick(auth.isLoggedIn);
    auth.Check(store);
    late := HandleBookingClick(auth.isLoggedIn);
  }

  /** The page itself lies under `/product`, so the gate never stops it. */
  lemma NeverGated(cookies: map<string, string>)
    ensures Middleware.Gate(Routes.ProductTrucking, cookies) == Middleware.Next
  {
    Middleware.ProductSubtreeIsPublic(Routes.ProductTrucking);
  }
}
