/**
 * The booking orchestration: the creation saga, the redemption of a ticket
 * and the owner's listing. Every collaborator (the bookings database, the
 * cinema service's seat reservation and metadata endpoints, the QR code
 * generator) is an oracle: the model receives the reply each call got and
 * records the calls that change remote state.
 */
module BookingService {
  import opened Wrappers
  import opened GoInts
  import opened Models
  import opened External
  import opened Store

  const QRFailed: string := "failed to generate QR code"
  const CreateFailed: string := "failed to create booking"
  const CommitFailedMsg: string := "failed to commit transaction"
  const InvalidOrUsed: string := "invalid or used ticket"
  const UpdateFailed: string := "failed to update booking status"

  /** The life of the one transaction handle an operation opens. */
  datatype TxStatus = NoTx | Open | RolledBack | Committed | CommitFailed

  /**
   * What each collaborator answers during one creation saga: the reply to
   * the reserve request, the QR generator's output (`None` for an error),
   * and whether the insert and the commit succeed.
   */
  datatype CreationReplies = CreationReplies(
    reserve: Reply, qrCode: Option<string>, createOk: bool, commitOk: bool)

  /**
   * The `int64` copy of the seat identifiers, filled in place in an array of
   * the same length.
   */
  method ToInt64Array(seatIDs: seq<Uint>) returns (a: array<Int64>)
    ensures a.Length == |seatIDs|
    ensures a[..] == Int64s(seatIDs)
    ensures forall i :: 0 <= i < a.Length ==> ToUint(a[i]) == seatIDs[i]
  {
    a := new Int64[|seatIDs|];
    var i := 0;
    while i < |seatIDs|
      invariant 0 <= i <= |seatIDs|
      invariant forall k :: 0 <= k < i ==> a[k] == ToInt64(seatIDs[k])
    {
      a[i] := ToInt64(seatIDs[i]);
      i := i + 1;
    }
    forall k | 0 <= k < a.Length ensures ToUint(a[k]) == seatIDs[k] {
      UintRoundTrip(seatIDs[k]);
    }
  }

  class BookingService {
    /** The committed bookings table, in insertion order. */
    var store: seq<Booking>
    /** The id and the timestamp the database gives the next row it writes. */
    var nextID: nat
    var clock: nat
    /** The operation's transaction and the table as seen inside it. */
    var txStatus: TxStatus
    var staged: seq<Booking>
    /** Every reserve and every release request sent to the cinema service. */
    ghost var reserveLog: seq<seq<Uint>>
    ghost var releaseLog: seq<seq<Uint>>
    /** The seats whose reservation succeeded in the saga that used each booking code. */
    ghost var reservedFor: map<string, seq<Uint>>

    /** Every persisted booking holds the seats that were reserved for its code. */
    ghost predicate Backed()
      reads this
    {
      forall i :: 0 <= i < |store| ==>
        store[i].bookingCode in reservedFor && store[i].seatIDs == Int64s(reservedFor[store[i].bookingCode])
    }

    ghost predicate Valid()
      reads this
    {
      WellFormed(store, nextID, clock) && Backed()
    }

    constructor ()
      ensures Valid()
      ensures store == [] && txStatus == NoTx && staged == []
      ensures reserveLog == [] && releaseLog == [] && reservedFor == map[]
    {
      store, nextID, clock := [], 1, 0;
      txStatus, staged := NoTx, [];
      reserveLog, releaseLog, reservedFor := [], [], map[];
    }

    /** `DB.Begin()`. */
    method Begin()
      modifies this`txStatus, this`staged
      ensures txStatus == Open && staged == store
    {
      txStatus, staged := Open, store;
    }

    /** `tx.Rollback()`: the staged writes are discarded. */
    method Rollback()
      requires txStatus == Open
      modifies this`txStatus, this`staged
      ensures txStatus == RolledBack && staged == []
    {
      txStatus, staged := RolledBack, [];
    }

    /** `tx.Commit()`: on success the staged table becomes the committed one. */
    method Commit(ok: bool) returns (success: bool)
      requires txStatus == Open
      modifies this`txStatus, this`staged, this`store
      ensures success == ok && staged == []
      ensures ok ==> txStatus == Committed && store == old(staged)
      ensures !ok ==> txStatus == CommitFailed && store == old(store)
    {
      success := ok;
      if ok {
        store, txStatus := staged, Committed;
      } else {
        txStatus := CommitFailed;
      }
      staged := [];
    }

    /** `tx.Create(&row)`: the database stamps the row with an id and its creation time. */
    method Insert(row: Booking, ok: bool) returns (created: Booking, success: bool)
      requires txStatus == Open
      modifies this`staged, this`nextID, this`clock
      ensures success == ok
      ensures created == row.(id := old(nextID), createdAt := old(clock), updatedAt := old(clock))
      ensures ok ==> staged == old(staged) + [created] && nextID == old(nextID) + 1 && clock == old(clock) + 1
      ensures !ok ==> staged == old(staged) && nextID == old(nextID) && clock == old(clock)
    {
      created := row.(id := nextID, createdAt := clock, updatedAt := clock);
      success := ok;
      if ok {
        staged := staged + [created];
        nextID, clock := nextID + 1, clock + 1;
      }
    }

    /** `tx.Model(&b).Update("status", status)` on the row with the given id. */
    method UpdateStatus(id: nat, status: string, ok: bool) returns (success: bool)
      requires txStatus == Open
      modifies this`staged, this`clock
      ensures success == ok
      ensures ok ==> staged == SetStatus(old(staged), id, status, old(clock)) && clock == old(clock) + 1
      ensures !ok ==> staged == old(staged) && clock == old(clock)
    {
      success := ok;
      if ok {
        staged := SetStatus(staged, id, status, clock);
        clock := clock + 1;
      }
    }

    /** `utils.ReserveSeats`: one request, whose reply decides the error. */
    method ReserveSeats(seatIDs: seq<Uint>, reply: Reply) returns (err: Option<string>)
      modifies this`reserveLog
      ensures reserveLog == old(reserveLog) + [seatIDs]
      ensures err == ReserveSeatsError(reply)
    {
      reserveLog := reserveLog + [seatIDs];
      err := ReserveSeatsError(reply);
    }

    /** `utils.ReleaseSeats`: one request, fire and forget; nothing comes back. */
    method ReleaseSeats(seatIDs: seq<Uint>)
      modifies this`releaseLog
      ensures releaseLog == old(releaseLog) + [seatIDs]
    {
      releaseLog := releaseLog + [seatIDs];
    }

    /**
     * The outcome of one creation saga. The reserve request is always sent.
     * A failed reservation returns its error with no release request and
     * leaves the table alone; what happens after a successful one is
     * `AfterReservation`.
     */
    twostate predicate CreationSaga(
      studioID: Uint, seatIDs: seq<Uint>, userID: Option<Uint>, userName: string, userEmail: string,
      bookingType: string, bookingCode: string, replies: CreationReplies, new r: Result<Booking>)
      reads this
    {
      && reserveLog == old(reserveLog) + [seatIDs]
      && (if ReserveSeatsError(replies.reserve).Some? then
            && r == Err(ReserveFailed)
            && releaseLog == old(releaseLog) && store == old(store) && txStatus == RolledBack
          else
            AfterReservation(studioID, seatIDs, userID, userName, userEmail, bookingType, bookingCode, replies, r))
    }

    /**
     * The saga once the seats are held. Each failure sends exactly one
     * release request for the same seats and returns that step's own error;
     * only a full success changes the table, by exactly the returned row.
     */
    twostate predicate AfterReservation(
      studioID: Uint, seatIDs: seq<Uint>, userID: Option<Uint>, userName: string, userEmail: string,
      bookingType: string, bookingCode: string, replies: CreationReplies, new r: Result<Booking>)
      reads this
    {
      if replies.qrCode.None? then
        && r == Err(QRFailed)
        && releaseLog == old(releaseLog) + [seatIDs] && store == old(store) && txStatus == RolledBack
      else if !replies.createOk then
        && r == Err(CreateFailed)
        && releaseLog == old(releaseLog) + [seatIDs] && store == old(store) && txStatus == RolledBack
      else if !replies.commitOk then
        && r == Err(CommitFailedMsg)
        && releaseLog == old(releaseLog) + [seatIDs] && store == old(store) && txStatus == CommitFailed
      else
        && r.Ok?
        && r.value.bookingCode == bookingCode
        && r.value.userID == userID
        && r.value.userName == userName
        && r.value.userEmail == userEmail
        && r.value.studioID == studioID
        && r.value.seatIDs == Int64s(seatIDs)
        && r.value.qrCode == replies.qrCode.value
        && r.value.bookingType == bookingType
        && r.value.status == Active
        && r.value.id == old(nextID) && r.value.createdAt == old(clock)
        && store == old(store) + [r.value]
        && releaseLog == old(releaseLog) && txStatus == Committed
    }

    /**
     * `createBooking`: reserve, mint the QR code for the given fresh booking
     * code, insert the row in a transaction, commit; compensate with one
     * release after any failure that follows a successful reservation.
     */
    method CreateBooking(
      studioID: Uint, seatIDs: seq<Uint>, userID: Option<Uint>, userName: string, userEmail: string,
      bookingType: string, bookingCode: string, replies: CreationReplies)
      returns (r: Result<Booking>)
      requires Valid()
      requires CodeUnused(store, bookingCode)
      modifies this
      ensures Valid()
      ensures CreationSaga(studioID, seatIDs, userID, userName, userEmail, bookingType, bookingCode, replies, r)
    {
      Begin();
      var err := ReserveSeats(seatIDs, replies.reserve);
      if err.Some? {
        Rollback();
        return Err(err.value);
      }
      reservedFor := reservedFor[bookingCode := seatIDs];
      r := MintAndPersist(studioID, seatIDs, userID, userName, userEmail, bookingType, bookingCode, replies);
    }

    /**
     * The saga after a successful reservation: take the generator's QR code,
     * build the row with the `int64` copy of the seats, and persist it.
     */
    method MintAndPersist(
      studioID: Uint, seatIDs: seq<Uint>, userID: Option<Uint>, userName: string, userEmail: string,
      bookingType: string, bookingCode: string, replies: CreationReplies)
      returns (r: Result<Booking>)
      requires Valid() && txStatus == Open && staged == store
      requires CodeUnused(store, bookingCode)
      requires bookingCode in reservedFor && reservedFor[bookingCode] == seatIDs
      modifies this
      ensures Valid()
      ensures reserveLog == old(reserveLog) && reservedFor == old(reservedFor)
      ensures AfterReservation(studioID, seatIDs, userID, userName, userEmail, bookingType, bookingCode, replies, r)
    {
      if replies.qrCode.None? {
        Rollback();
        ReleaseSeats(seatIDs);
        return Err(QRFailed);
      }
      var qrCode := replies.qrCode.value;

      var ids := ToInt64Array(seatIDs);
      var booking := Booking(0, bookingCode, userID, userName, userEmail, studioID, ids[..],
                             qrCode, bookingType, Active, 0, 0);
      r := Persist(booking, seatIDs, replies.createOk, replies.commitOk);
    }

    /**
     * The last two steps of the saga, once the seats are held: insert the
     * row and commit, releasing the seats if either fails.
     */
    method Persist(booking: Booking, seatIDs: seq<Uint>, createOk: bool, commitOk: bool)
      returns (r: Result<Booking>)
      requires Valid() && txStatus == Open && staged == store
      requires CodeUnused(store, booking.bookingCode)
      requires booking.bookingCode in reservedFor && booking.seatIDs == Int64s(reservedFor[booking.bookingCode])
      modifies this
      ensures Valid()
      ensures reserveLog == old(reserveLog) && reservedFor == old(reservedFor)
      ensures !createOk ==>
        && r == Err(CreateFailed)
        && releaseLog == old(releaseLog) + [seatIDs] && store == old(store) && txStatus == RolledBack
      ensures createOk && !commitOk ==>
        && r == Err(CommitFailedMsg)
        && releaseLog == old(releaseLog) + [seatIDs] && store == old(store) && txStatus == CommitFailed
      ensures createOk && commitOk ==>
        && r == Ok(booking.(id := old(nextID), createdAt := old(clock), updatedAt := old(clock)))
        && store == old(store) + [r.value] && releaseLog == old(releaseLog) && txStatus == Committed
    {
      AppendWellFormed(store, nextID, clock, booking.(id := nextID, createdAt := clock, updatedAt := clock));
      var created, ok := Insert(booking, createOk);
      if !ok {
        Rollback();
        ReleaseSeats(seatIDs);
        return Err(CreateFailed);
      }
      ok := Commit(commitOk);
      if !ok {
        ReleaseSeats(seatIDs);
        return Err(CommitFailedMsg);
      }
      return Ok(created);
    }

    /** `CreateOnlineBooking`: the account holder's own booking. */
    method CreateOnlineBooking(req: OnlineBookingRequest, user: User, bookingCode: string, replies: CreationReplies)
      returns (r: Result<Booking>)
      requires Valid()
      requires CodeUnused(store, bookingCode)
      modifies this
      ensures Valid()
      ensures CreationSaga(req.studioID, req.seatIDs, Some(user.id), user.name, user.email,
                           Online, bookingCode, replies, r)
    {
      r := CreateBooking(req.studioID, req.seatIDs, Some(user.id), user.name, user.email,
                         Online, bookingCode, replies);
    }

    /** `CreateOfflineBooking`: a booking with no account behind it. */
    method CreateOfflineBooking(req: OfflineBookingRequest, bookingCode: string, replies: CreationReplies)
      returns (r: Result<Booking>)
      requires Valid()
      requires CodeUnused(store, bookingCode)
      modifies this
      ensures Valid()
      ensures CreationSaga(req.studioID, req.seatIDs, None, req.customerName, req.customerEmail,
                           Offline, bookingCode, replies, r)
    {
      r := CreateBooking(req.studioID, req.seatIDs, None, req.customerName, req.customerEmail,
                         Offline, bookingCode, replies);
    }

    /**
     * `ValidateQRCode`: redeem a ticket. It succeeds exactly when an active
     * booking with the code exists and the lookup, the update and the commit
     * all go through; that booking alone becomes used, and no active booking
     * with the code is left. An unknown code and a used one get the same
     * error.
     */
    method ValidateQRCode(bookingCode: string, lookupOk: bool, updateOk: bool, commitOk: bool)
      returns (r: Result<Booking>)
      requires Valid()
      modifies this
      ensures Valid()
      ensures reserveLog == old(reserveLog) && releaseLog == old(releaseLog) && reservedFor == old(reservedFor)
      ensures r.Ok? <==> lookupOk && FindActive(old(store), bookingCode).Some? && updateOk && commitOk
      ensures !lookupOk || FindActive(old(store), bookingCode).None? ==>
        r == Err(InvalidOrUsed) && txStatus == RolledBack
      ensures lookupOk && FindActive(old(store), bookingCode).Some? && !updateOk ==>
        r == Err(UpdateFailed) && txStatus == RolledBack
      ensures lookupOk && FindActive(old(store), bookingCode).Some? && updateOk && !commitOk ==>
        r == Err(CommitFailedMsg) && txStatus == CommitFailed
      ensures r.Err? ==> store == old(store)
      ensures r.Ok? ==>
        var i := FindActive(old(store), bookingCode).value;
        && store == old(store)[i := old(store)[i].(status := Used, updatedAt := old(clock))]
        && r.value == store[i]
        && txStatus == Committed
      ensures r.Ok? ==> FindActive(store, bookingCode).None?
    {
      Begin();
      var found := if lookupOk then FindActive(staged, bookingCode) else None;
      if found.None? {
        Rollback();
        return Err(InvalidOrUsed);
      }
      RedeemedCodeIsSpent(store, nextID, clock, bookingCode, clock);
      SetStatusChangesOneRow(store, nextID, clock, found.value, Used, clock);
      r := MarkUsed(found.value, updateOk, commitOk);
    }

    /**
     * The second half of a redemption: mark the booking found at position
     * `i` used, by its id, and commit.
     */
    method MarkUsed(i: nat, updateOk: bool, commitOk: bool) returns (r: Result<Booking>)
      requires Valid() && txStatus == Open && staged == store && i < |store|
      modifies this
      ensures Valid()
      ensures reserveLog == old(reserveLog) && releaseLog == old(releaseLog) && reservedFor == old(reservedFor)
      ensures !updateOk ==> r == Err(UpdateFailed) && store == old(store) && txStatus == RolledBack
      ensures updateOk && !commitOk ==> r == Err(CommitFailedMsg) && store == old(store) && txStatus == CommitFailed
      ensures updateOk && commitOk ==>
        && store == SetStatus(old(store), old(store)[i].id, Used, old(clock))
        && r == Ok(old(store)[i].(status := Used, updatedAt := old(clock)))
        && txStatus == Committed
    {
      var booking := staged[i];
      var now := clock;
      SetStatusWellFormed(store, nextID, clock + 1, booking.id, Used, now);
      var ok := UpdateStatus(booking.id, Used, updateOk);
      if !ok {
        Rollback();
        return Err(UpdateFailed);
      }
      booking := booking.(status := Used, updatedAt := now);
      ok := Commit(commitOk);
      if !ok {
        return Err(CommitFailedMsg);
      }
      return Ok(booking);
    }

    /**
     * `GetUserBookings`: the owner's bookings, newest first, each with the
     * studio and seat metadata the cinema service returned for it. The k-th
     * listed booking's studio lookup, for its studio id, gets
     * `studioAt(k, studioID)`; its seat lookup, made only when it has seats
     * and sent the `uint` copy of its seat ids, gets `seatsAt(k, ids)`. A failed lookup leaves
     * its field empty; only a failed query fails the call.
     */
    method GetUserBookings(
      userID: Uint, queryErr: Option<string>,
      studioAt: (nat, Uint) -> Result<StudioDetails>, seatsAt: (nat, seq<Uint>) -> Result<seq<SeatDetails>>)
      returns (r: Result<seq<BookingWithDetails>>)
      requires Valid()
      ensures queryErr.Some? ==> r == Err(queryErr.value)
      ensures queryErr.None? ==> r.Ok? && |r.value| == |UserBookings(store, userID)|
      ensures r.Ok? ==> forall k :: 0 <= k < |r.value| ==>
        && Summarizes(r.value[k], UserBookings(store, userID)[k])
        && r.value[k].studio == studioAt(k, UserBookings(store, userID)[k].studioID).ToOption()
        && r.value[k].seats == (if |UserBookings(store, userID)[k].seatIDs| == 0 then None
                                else seatsAt(k, Uints(UserBookings(store, userID)[k].seatIDs)).ToOption())
      ensures r.Ok? ==> forall k :: 0 <= k < |r.value| ==> r.value[k].userID == Some(userID)
      ensures r.Ok? ==> forall j, k :: 0 <= j < k < |r.value| ==> r.value[j].createdAt > r.value[k].createdAt
    {
      if queryErr.Some? {
        return Err(queryErr.value);
      }
      var bookings := UserBookings(store, userID);
      UserBookingsNewestFirst(store, userID);

      var bookingsWithDetails: seq<BookingWithDetails> := [];
      var i := 0;
      while i < |bookings|
        invariant 0 <= i <= |bookings|
        invariant |bookingsWithDetails| == i
        invariant forall k :: 0 <= k < i ==>
          && Summarizes(bookingsWithDetails[k], bookings[k])
          && bookingsWithDetails[k].studio == studioAt(k, bookings[k].studioID).ToOption()
          && bookingsWithDetails[k].seats ==
               (if |bookings[k].seatIDs| == 0 then None else seatsAt(k, Uints(bookings[k].seatIDs)).ToOption())
      {
        var booking := bookings[i];
        var studio: Option<StudioDetails> := None;
        var studioReply := studioAt(i, booking.studioID);
        if studioReply.Ok? {
          studio := Some(studioReply.value);
        }

        var seats: Option<seq<SeatDetails>> := None;
        if |booking.seatIDs| > 0 {
          var seatsReply := seatsAt(i, Uints(booking.seatIDs));
          if seatsReply.Ok? {
            seats := Some(seatsReply.value);
          }
        }

        var bookingDetail := BookingWithDetails(
          booking.id, booking.bookingCode, booking.userID, booking.userName, booking.userEmail,
          booking.qrCode, booking.bookingType, booking.status, booking.createdAt, booking.updatedAt,
          studio, seats);
        bookingsWithDetails := bookingsWithDetails + [bookingDetail];
        i := i + 1;
      }
      return Ok(bookingsWithDetails);
    }
  }

  /**
   * A client of the service: an offline booking for studio 7 and seats 101 and
   * 102 whose collaborators all succeed is persisted active, with no owner and
   * after one reserve request for exactly those seats; redeeming its code once
   * succeeds and redeeming it again is refused as an invalid or used ticket.
   */
  method OfflineBookingRedeemedOnce(qrCode: string)
  {
    var service := new BookingService();
    var req := OfflineBookingRequest(7, [101, 102], "A. Lee", "lee@example.com");
    var allOk := CreationReplies(Response(200), Some(qrCode), true, true);
    var created := service.CreateOfflineBooking(req, "code-1", allOk);
    assert created.Ok? && created.value.bookingType == Offline && created.value.userID == None;
    assert created.value.status == Active && created.value.bookingCode == "code-1";
    assert service.reserveLog == [[101, 102]] && service.releaseLog == [];

    var first := service.ValidateQRCode("code-1", true, true, true);
    assert first.Ok? && first.value.status == Used;
    var second := service.ValidateQRCode("code-1", true, true, true);
    assert second == Err(InvalidOrUsed);
  }

  /**
   * A client of the service: when the seats are reserved but the insert
   * fails, the call fails with the insert's error, exactly one release
   * request for the same seats is sent and nothing is persisted; when the
   * reservation itself is refused, no release request is sent at all.
   */
  method FailedSagasCompensateOnce(qrCode: string)
  {
    var service := new BookingService();
    var req := OfflineBookingRequest(7, [101, 102], "A. Lee", "lee@example.com");
    var insertFails := CreationReplies(Response(200), Some(qrCode), false, true);
    var r := service.CreateOfflineBooking(req, "code-1", insertFails);
    assert r == Err(CreateFailed);
    assert service.releaseLog == [[101, 102]] && service.store == [];

    var refused := CreationReplies(Response(409), Some(qrCode), true, true);
    r := service.CreateOfflineBooking(req, "code-2", refused);
    assert r == Err(ReserveFailed);
    assert service.reserveLog == [[101, 102], [101, 102]] && service.releaseLog == [[101, 102]];
    assert service.store == [];
  }
}
