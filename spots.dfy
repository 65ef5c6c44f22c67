/** The parking-spot record shared by every part of the application, and the
    optional value used for the nullable state the views keep. */
module Spots {

  /** A value that may be absent (a JavaScript `null`). */
  datatype Option<+T> = None | Some(value: T)

  /** The three payment categories of a spot. */
  datatype PaymentType = Exclusivo | Gratuito | Pago

  /** One parking spot. Spots are static demo data: created once, never mutated.
      `distance` is display text such as "120m"; the list is ordered by the
      number at its front. `paymentType` is the record's `type` field. */
  datatype ParkingSpot = ParkingSpot(
    id: int,
    lat: real,
    lng: real,
    zone: string,
    spot: string,
    maxTime: string,
    paymentType: PaymentType,
    price: string,
    distance: string
  )
}
