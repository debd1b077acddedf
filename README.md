# Booking orchestration of the cinema booking service

This project models the core of the booking service's `services` package. That core has three parts:

- **Creation saga** (`createBooking` and its two wrappers). It reserves the seats at the cinema service, takes a QR code for a fresh booking code, inserts the booking row in a database transaction and commits. Every failure after a successful reservation is compensated by exactly one release request.
- **Redemption** (`ValidateQRCode`). It finds the *active* booking with a code and marks it *used*.
- **Listing** (`GetUserBookings`). It returns one owner's bookings, newest first, each enriched with studio and seat metadata. A failed enrichment only leaves a field empty.

Modules:

- `Wrappers`: `Option` (Go's nil pointer / nil slice) and `Result` (Go's `(value, error)`).
- `GoInts`: Go's `uint` and `int64` and the conversions between them. These are the `int64(id)` applied when seat ids are stored as a `pq.Int64Array` (Go `[]int64`), and the `uint(id)` applied when they are sent back for seat details.
- `Models`: the booking row, `StudioDetails`, `SeatDetails`, `BookingWithDetails`, the user and the two request records.
- `External`: how the reply to a reserve request becomes `ReserveSeats`'s error.
- `Store`: the bookings table as a sequence of rows in insertion order, and the three queries as functions:
  - find the first active row with a code;
  - update a row's status by id;
  - the owner's rows ordered by `created_at` descending.

  Ids and creation times are stamped from counters that only grow. So "newest first" is reverse insertion order, and the lemmas prove it is strictly decreasing in creation time.
- `BookingService`: a class holding:
  - the committed table;
  - the database's id and time counters;
  - the operation's transaction state (`NoTx` before any operation, then `Open`, `RolledBack`, `Committed` or `CommitFailed`) and the table as seen inside it;
  - ghost logs of every reserve and release request;
  - a ghost map from each booking code to the seats recorded for it when its reservation succeeded.

  The class invariant `Valid` says the table is well formed (increasing ids and creation times, unique booking codes). It also says every persisted booking holds exactly the `int64` copy of the seats recorded for its code when its reservation succeeded.

Collaborators are oracles: each operation receives the reply every call gets.

- The reserve request's HTTP reply is a parameter.
- The QR generator's output is a parameter (`None` when it fails).
- Whether the insert, the status update, the commit and the lookup succeed are parameters.
- The listing query's error is a parameter.
- The k-th listed booking's studio lookup gets `studioAt(k, studioID)` for its own studio id. Its seat lookup gets `seatsAt(k, ids)`, where `ids` is the `uint` copy of its stored seat ids.
- The booking code that `uuid.New()` would produce is a parameter. The callers must pass one no stored row carries, because the source never re-checks uniqueness.

The model follows the code:

- Redemption updates the row by its id (booking_service.go:97) without re-checking that it is still active, and does not look at the number of rows changed.
- Errors are the code's fixed strings. A failed reservation returns `ReserveSeats`'s own message, "failed to reserve seats".
- `createBooking` does not check that the seat list is non-empty.

Two client methods, `OfflineBookingRedeemedOnce` and `FailedSagasCompensateOnce`, are derived from the contracts alone:
- an offline booking for studio 7 and seats 101 and 102 is persisted active with no owner;
- it can be redeemed once, and a second redemption is refused;
- a failed insert sends exactly one release request;
- a refused reservation sends none.

## Model

| member | source | states |
|---|---|---|
| `GoInts.ToInt64` | booking-service/services/booking_service.go:50 | `int64(u)` keeps the 64-bit pattern (equal modulo 2^64) and is the identity exactly when `u < 2^63` |
| `GoInts.ToUint` | booking-service/utils/external.go:72 | `uint(i)` keeps the 64-bit pattern and is the identity exactly when `i >= 0` |
| `GoInts.Int64s` | booking-service/services/booking_service.go:48-51 | the stored copy has the input's length, and each entry converts back to the input id at its position |
| `GoInts.Uints` | booking-service/utils/external.go:70-73 | the request copy has the input's length, and each entry converts back to the stored id at its position |
| `GoInts.UintRoundTrip` | booking-service/services/booking_service.go:50 | converting a `uint` to `int64` and back gives the original |
| `GoInts.Int64RoundTrip` | booking-service/utils/external.go:72 | converting an `int64` to `uint` and back gives the original |
| `GoInts.SeatIDsRoundTrip` | booking-service/utils/external.go:69-73 | the seat ids sent for seat details after the `int64` storage are exactly the reserved ids, in order |
| `GoInts.SmallSeatIDsUnchanged` | booking-service/services/booking_service.go:48-51 | when every id is below 2^63 the stored copy has the same length and `stored[i] == seatIDs[i]` for every `i` |
| `External.ReserveSeatsError` | booking-service/utils/external.go:28-38 | reserving succeeds exactly when the service answered 200; a transport error or any other status gives "failed to reserve seats" |
| `Store.FindActive` | booking-service/services/booking_service.go:90 | returns the first position holding the code with status active; returns none exactly when no row has both |
| `Store.SetStatus` | booking-service/services/booking_service.go:97 | the update by id keeps the table's length and every row's id, code, owner, studio, seats, QR code, type and creation time; the rows with that id get the new status and time, every other row is unchanged |
| `Store.UserBookings` | booking-service/services/booking_service.go:112 | a booking is listed exactly when it is in the table and belongs to the user |
| `Store.UserBookingsNewestFirst` | booking-service/services/booking_service.go:112 | on a table created in time order, the listing strictly decreases in `createdAt`, so each matching row appears once |
| `Store.AppendWellFormed` | booking-service/services/booking_service.go:66 | inserting a row with an unused code, the next id and the current time keeps ids, times and codes unique and increasing |
| `Store.SetStatusChangesOneRow` | booking-service/services/booking_service.go:97 | the status update by id changes the one row with that id and no other |
| `Store.SetStatusWellFormed` | booking-service/services/booking_service.go:97 | the status update keeps the table well formed |
| `Store.RedeemedCodeIsSpent` | booking-service/services/booking_service.go:89-101 | after the found active row is marked used, no active row with that code remains |
| `BookingService.ToInt64Array` | booking-service/services/booking_service.go:48-51 | the loop fills an array of the input's length with `int64` of each id, in order, and every entry converts back to the input id |
| `BookingService.BookingService.Begin` | booking-service/services/booking_service.go:23 | opens the transaction on a snapshot of the committed table |
| `BookingService.BookingService.Rollback` | booking-service/services/booking_service.go:33 | discards the transaction's writes |
| `BookingService.BookingService.Commit` | booking-service/services/booking_service.go:73 | on success the transaction's table becomes the committed one; on failure the committed table is unchanged |
| `BookingService.BookingService.Insert` | booking-service/services/booking_service.go:66 | the inserted row gets the next id and the current time; on failure nothing is written |
| `BookingService.BookingService.UpdateStatus` | booking-service/services/booking_service.go:97 | sets the status of the rows with the id inside the transaction |
| `BookingService.BookingService.ReserveSeats` | booking-service/services/booking_service.go:31 | one reserve request with exactly the seat ids is logged; the error is the reply's |
| `BookingService.BookingService.ReleaseSeats` | booking-service/utils/external.go:40-44 | one release request with exactly the seat ids is logged; nothing is returned |
| `BookingService.BookingService.CreateBooking` | booking-service/services/booking_service.go:21-79 | one reserve request always. If it fails: "failed to reserve seats", no release, table unchanged, rolled back. A later failure gives exactly one release of the input seats and that step's error, with the table unchanged. On success: one new row whose code, QR code, user, name, email, studio and type are the inputs, status active, seats the `int64` copy. The invariant is kept |
| `BookingService.BookingService.MintAndPersist` | booking-service/services/booking_service.go:39-64 | after the reservation, a QR failure releases the seats once and returns "failed to generate QR code"; otherwise the row is built and persisted |
| `BookingService.BookingService.Persist` | booking-service/services/booking_service.go:66-78 | insert failure: rollback, one release, "failed to create booking". Commit failure: one release, "failed to commit transaction". Otherwise the table grows by exactly the returned row |
| `BookingService.BookingService.CreateOnlineBooking` | booking-service/services/booking_service.go:13-15 | the saga runs with the user's id as owner, the user's name and email, and type "online" |
| `BookingService.BookingService.CreateOfflineBooking` | booking-service/services/booking_service.go:17-19 | the saga runs with no owner, the customer's name and email, and type "offline" |
| `BookingService.BookingService.ValidateQRCode` | booking-service/services/booking_service.go:81-108 | succeeds exactly when the lookup, the update and the commit all succeed and an active booking with the code exists. An unknown and a used code both give "invalid or used ticket". On success only that booking changes (status used), it is returned, and no active booking with the code is left, so a second call fails. On error the table is unchanged |
| `BookingService.BookingService.MarkUsed` | booking-service/services/booking_service.go:96-107 | update failure: rollback, "failed to update booking status". Commit failure: "failed to commit transaction", table unchanged. Otherwise the row is committed as used and returned |
| `BookingService.BookingService.GetUserBookings` | booking-service/services/booking_service.go:110-151 | a query error is returned as is. Otherwise there is one item per listed booking, in order, carrying its fields. The studio is the reply to a lookup of the booking's own studio id, or empty on failure. The seats are empty without a lookup when there are no seat ids. Otherwise they are the reply to a lookup sent the `uint` copy of the stored seat ids, or empty on failure. Items belong to the user, newest first |

## Left out

- Panics and the deferred `recover` rollback: Dafny has no panics. Only the explicit return paths are modelled.
- HTTP plumbing, JSON encoding and the environment-variable configuration of the collaborators' base addresses. Only the observable outcome of each call is an input.
- The metadata lookups' own error messages (transport, status, decode). The listing only prints them, so a lookup is modelled as a value or an error.
- The URL and JSON encoding of the studio and seat-detail requests. A lookup is an oracle given the booking's position and the studio id or seat ids it asks about.
- `GenerateQRCode` and `uuid.New()`: their source is not part of this model. The QR string and the booking code are opaque inputs.
- `fmt.Printf` logging of enrichment failures.
- A failing `DB.Begin()`: the code never checks it.
- Concurrency: two operations never interleave in the model. Redemption's safety under concurrent calls rests on the database, and the code's update is not conditioned on the row still being active.
- SQL and ORM semantics beyond the three queries. The table is a sequence in insertion order. Ids and timestamps are unbounded naturals stamped from counters, not 64-bit values or wall-clock times. A failed insert uses up no id; an id given to a row whose commit then failed is not reused.
- `BookingService.BookingService.GetUserBookings`: an owner with no bookings gets an empty sequence. The code returns a nil slice, which `encoding/json` encodes as `null`; the model does not distinguish the two.
- The `Booking`, `User` and request model files are not part of this model. Their fields are those the service reads and writes.
