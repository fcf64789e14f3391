/** The paths the pages navigate between. */
module Routes {
  const Home: string := "/"
  const SignInPath: string := "/signin"
  const ProductTrucking: string := "/product/trucking"
  const TruckingBooking: string := "/product/trucking/booking"
  const TruckingInfo: string := "/product/trucking/info"
  const VesselBooking: string := "/product/vessel/booking"
  const VesselTracking: string := "/product/vessel/tracking"
  const ShipDetails: string := "/product/vessel/ship-details"
  const OrderConfirmation: string := "/product/vessel/order-confirmation"
  const Analytics: string := "/dashboard/analytics"

  /** Path segments, for spelling out encoded paths. */
  const ProductSegment: string := "product"
  const VesselSegment: string := "vessel"
  const TruckingSegment: string := "trucking"
  const BookingSegment: string := "booking"

  /** Proof scaffolding, modelling nothing: the sign-in address with an
      empty `redirect` value, as a literal stated apart from the encoder. */
  lemma RedirectQuerySpelled()
    ensures SignInPath + "?redirect=" == "/signin?redirect="
  {
  }
}
