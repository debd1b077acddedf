/**
 * What the booking service can observe of the cinema service's seat
 * reservation endpoint. The HTTP exchange itself is not modelled: a call is
 * represented by the reply it got.
 */
module External {
  import opened Wrappers

  const ReserveFailed: string := "failed to reserve seats"

  /** The reply to one HTTP request. */
  datatype Reply = TransportError | Response(statusCode: int)

  /**
   * The error `ReserveSeats` returns for a reply: success exactly when the
   * request reached the service and it answered 200, and one fixed message
   * otherwise.
   */
  function ReserveSeatsError(reply: Reply): (err: Option<string>)
    ensures err.None? <==> reply == Response(200)
    ensures err.Some? ==> err.value == ReserveFailed
  {
    if reply.TransportError? || reply.statusCode != 200 then Some(ReserveFailed) else None
  }
}
