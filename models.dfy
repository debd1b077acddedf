/** The records the booking service reads, writes and returns. */
module Models {
  import opened Wrappers
  import opened GoInts

  const Active: string := "active"
  const Used: string := "used"
  const Online: string := "online"
  const Offline: string := "offline"

  /**
   * A booking row. `id`, `createdAt` and `updatedAt` are assigned by the
   * store; timestamps are abstract ticks of a counter that only grows.
   */
  datatype Booking = Booking(
    id: nat,
    bookingCode: string,
    userID: Option<Uint>,
    userName: string,
    userEmail: string,
    studioID: Uint,
    seatIDs: seq<Int64>,
    qrCode: string,
    bookingType: string,
    status: string,
    createdAt: nat,
    updatedAt: nat)

  datatype StudioDetails = StudioDetails(id: Uint, name: string, totalSeats: Int64)

  datatype SeatDetails = SeatDetails(id: Uint, seatNumber: string)

  /**
   * A booking as listed to its owner: the row's own fields except the studio
   * and seat identifiers, plus the metadata fetched for them (`None` is Go's
   * nil pointer or nil slice).
   */
  datatype BookingWithDetails = BookingWithDetails(
    id: nat,
    bookingCode: string,
    userID: Option<Uint>,
    userName: string,
    userEmail: string,
    qrCode: string,
    bookingType: string,
    status: string,
    createdAt: nat,
    updatedAt: nat,
    studio: Option<StudioDetails>,
    seats: Option<seq<SeatDetails>>)

  /** A registered account, as far as booking uses it. */
  datatype User = User(id: Uint, name: string, email: string)

  /** A self-service booking request. */
  datatype OnlineBookingRequest = OnlineBookingRequest(studioID: Uint, seatIDs: seq<Uint>)

  /** A booking entered at the counter on behalf of a walk-in customer. */
  datatype OfflineBookingRequest = OfflineBookingRequest(
    studioID: Uint, seatIDs: seq<Uint>, customerName: string, customerEmail: string)

  /** `d` carries every field of `b` that a listed booking has. */
  predicate Summarizes(d: BookingWithDetails, b: Booking)
  {
    && d.id == b.id
    && d.bookingCode == b.bookingCode
    && d.userID == b.userID
    && d.userName == b.userName
    && d.userEmail == b.userEmail
    && d.qrCode == b.qrCode
    && d.bookingType == b.bookingType
    && d.status == b.status
    && d.createdAt == b.createdAt
    && d.updatedAt == b.updatedAt
  }
}
