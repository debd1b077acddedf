/**
 * The bookings table and the three queries the booking service runs on it.
 * A table is the sequence of its rows in insertion order; rows are inserted
 * with increasing ids and increasing creation times.
 */
module Store {
  import opened Wrappers
  import opened GoInts
  import opened Models

  /** The store's own invariant on a table, given its next id and clock. */
  ghost predicate WellFormed(s: seq<Booking>, nextID: nat, clock: nat)
  {
    && (forall i, j :: 0 <= i < j < |s| ==> s[i].id < s[j].id && s[i].createdAt < s[j].createdAt)
    && (forall i, j :: 0 <= i < |s| && 0 <= j < |s| && i != j ==> s[i].bookingCode != s[j].bookingCode)
    && (forall i :: 0 <= i < |s| ==> s[i].id < nextID && s[i].createdAt < clock)
  }

  /** No row of `s` carries `code`. */
  predicate CodeUnused(s: seq<Booking>, code: string)
  {
    forall i :: 0 <= i < |s| ==> s[i].bookingCode != code
  }

  predicate IsActiveWithCode(b: Booking, code: string)
  {
    b.bookingCode == code && b.status == Active
  }

  /**
   * `WHERE booking_code = code AND status = 'active'` followed by `First`:
   * the position of the first such row, if there is one.
   */
  function FindActive(s: seq<Booking>, code: string): (r: Option<nat>)
    ensures r.Some? ==> r.value < |s| && IsActiveWithCode(s[r.value], code)
    ensures r.Some? ==> forall j :: 0 <= j < r.value ==> !IsActiveWithCode(s[j], code)
    ensures r.None? <==> forall j :: 0 <= j < |s| ==> !IsActiveWithCode(s[j], code)
  {
    if s == [] then None
    else if IsActiveWithCode(s[0], code) then Some(0)
    else match FindActive(s[1..], code)
      case None => None
      case Some(i) => Some(i + 1)
  }

  /**
   * `Model(&booking).Update(column, status)`: every row with the given
   * primary key gets the new status and an updated timestamp. The update is
   * keyed by id only; it does not look at the row's current status.
   */
  function SetStatus(s: seq<Booking>, id: nat, status: string, now: nat): (r: seq<Booking>)
    ensures |r| == |s|
    ensures forall k :: 0 <= k < |s| ==>
      && r[k].id == s[k].id && r[k].bookingCode == s[k].bookingCode && r[k].userID == s[k].userID
      && r[k].userName == s[k].userName && r[k].userEmail == s[k].userEmail
      && r[k].studioID == s[k].studioID && r[k].seatIDs == s[k].seatIDs && r[k].qrCode == s[k].qrCode
      && r[k].bookingType == s[k].bookingType && r[k].createdAt == s[k].createdAt
    ensures forall k :: 0 <= k < |s| && s[k].id == id ==> r[k].status == status && r[k].updatedAt == now
    ensures forall k :: 0 <= k < |s| && s[k].id != id ==> r[k] == s[k]
  {
    seq(|s|, k requires 0 <= k < |s| =>
      if s[k].id == id then s[k].(status := status, updatedAt := now) else s[k])
  }

  /**
   * `WHERE user_id = userID ORDER BY created_at DESC`: the owner's rows,
   * newest first. Since rows are inserted in creation order this is the
   * owner's rows in reverse insertion order.
   */
  function UserBookings(s: seq<Booking>, userID: Uint): (r: seq<Booking>)
    ensures forall b :: b in r <==> b in s && b.userID == Some(userID)
  {
    if s == [] then []
    else
      assert s == [s[0]] + s[1..];
      var rest := UserBookings(s[1..], userID);
      if s[0].userID == Some(userID) then rest + [s[0]] else rest
  }

  /** Rows were created in strictly increasing time order. */
  ghost predicate Chronological(s: seq<Booking>)
  {
    forall i, j :: 0 <= i < j < |s| ==> s[i].createdAt < s[j].createdAt
  }

  /**
   * The listing really is newest first, which also means it holds each
   * matching row once.
   */
  lemma {:induction false} UserBookingsNewestFirst(s: seq<Booking>, userID: Uint)
    requires Chronological(s)
    ensures forall j, k :: 0 <= j < k < |UserBookings(s, userID)| ==>
      UserBookings(s, userID)[j].createdAt > UserBookings(s, userID)[k].createdAt
  {
    if s != [] {
      var rest := UserBookings(s[1..], userID);
      assert Chronological(s[1..]) by {
        forall i, j | 0 <= i < j < |s[1..]| ensures s[1..][i].createdAt < s[1..][j].createdAt {
          assert s[1..][i] == s[i + 1] && s[1..][j] == s[j + 1];
        }
      }
      UserBookingsNewestFirst(s[1..], userID);
      forall b | b in rest ensures b.createdAt > s[0].createdAt {
        assert b in s[1..];
        var i :| 0 <= i < |s[1..]| && s[1..][i] == b;
        assert s[i + 1] == b;
      }
    }
  }

  /** An appended row with a fresh code, the next id and the current time keeps the table well formed. */
  lemma AppendWellFormed(s: seq<Booking>, nextID: nat, clock: nat, row: Booking)
    requires WellFormed(s, nextID, clock)
    requires CodeUnused(s, row.bookingCode)
    requires row.id == nextID && row.createdAt == clock
    ensures WellFormed(s + [row], nextID + 1, clock + 1)
  {
  }

  /**
   * Updating the status of the row at position `i` by its id changes that
   * row only: ids are unique in a well-formed table.
   */
  lemma SetStatusChangesOneRow(s: seq<Booking>, nextID: nat, clock: nat, i: nat, status: string, now: nat)
    requires WellFormed(s, nextID, clock)
    requires i < |s|
    ensures SetStatus(s, s[i].id, status, now) == s[i := s[i].(status := status, updatedAt := now)]
  {
  }

  /** A status update keeps ids, codes and creation times, hence the invariant. */
  lemma SetStatusWellFormed(s: seq<Booking>, nextID: nat, clock: nat, id: nat, status: string, now: nat)
    requires WellFormed(s, nextID, clock)
    ensures WellFormed(SetStatus(s, id, status, now), nextID, clock)
  {
  }

  /**
   * Once the active row with a code is marked used, no active row with that
   * code is left: a second redemption of the same code finds nothing.
   */
  lemma RedeemedCodeIsSpent(s: seq<Booking>, nextID: nat, clock: nat, code: string, now: nat)
    requires WellFormed(s, nextID, clock)
    requires FindActive(s, code).Some?
    ensures FindActive(SetStatus(s, s[FindActive(s, code).value].id, Used, now), code).None?
  {
  }
}
