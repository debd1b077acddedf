/**
 * Go's 64-bit integer types and the conversions between them that the
 * booking service performs when it stores seat identifiers as a
 * `pq.Int64Array` (Go `[]int64`) and sends them back to the cinema service.
 */
module GoInts {

  const TwoTo63: int := 0x8000_0000_0000_0000
  const TwoTo64: int := 0x1_0000_0000_0000_0000

  /** Go `uint` on a 64-bit platform. */
  type Uint = x: int | 0 <= x < 0x1_0000_0000_0000_0000

  /** Go `int64`. */
  type Int64 = x: int | -0x8000_0000_0000_0000 <= x < 0x8000_0000_0000_0000

  /** Go's `int64(u)`: the same 64 bits read as two's complement. */
  function ToInt64(u: Uint): (r: Int64)
    ensures (r - u) % TwoTo64 == 0
    ensures r == u <==> u < TwoTo63
  {
    if u < TwoTo63 then u else u - TwoTo64
  }

  /** Go's `uint(i)` for an `int64`: the same 64 bits read as unsigned. */
  function ToUint(i: Int64): (r: Uint)
    ensures (r - i) % TwoTo64 == 0
    ensures r == i <==> 0 <= i
  {
    if 0 <= i then i else i + TwoTo64
  }

  /** Element-wise `int64(...)` of a slice of seat identifiers. */
  function Int64s(s: seq<Uint>): (r: seq<Int64>)
    ensures |r| == |s|
    ensures forall i :: 0 <= i < |s| ==> ToUint(r[i]) == s[i]
  {
    seq(|s|, i requires 0 <= i < |s| => ToInt64(s[i]))
  }

  /** Element-wise `uint(...)` of a slice of stored seat identifiers. */
  function Uints(s: seq<Int64>): (r: seq<Uint>)
    ensures |r| == |s|
    ensures forall i :: 0 <= i < |s| ==> ToInt64(r[i]) == s[i]
  {
    seq(|s|, i requires 0 <= i < |s| => ToUint(s[i]))
  }

  /** Converting a `uint` to `int64` and back loses nothing, whatever its size. */
  lemma UintRoundTrip(u: Uint)
    ensures ToUint(ToInt64(u)) == u
  {
  }

  /** Converting an `int64` to `uint` and back loses nothing, whatever its sign. */
  lemma Int64RoundTrip(i: Int64)
    ensures ToInt64(ToUint(i)) == i
  {
  }

  /**
   * Seat identifiers stored as `int64` and converted back to `uint` before a
   * seat-details request are exactly the identifiers that were reserved.
   */
  lemma SeatIDsRoundTrip(s: seq<Uint>)
    ensures Uints(Int64s(s)) == s
  {
  }

  /** Identifiers below 2^63 are stored unchanged, in the same order. */
  lemma SmallSeatIDsUnchanged(s: seq<Uint>)
    requires forall k :: 0 <= k < |s| ==> s[k] < TwoTo63
    ensures |Int64s(s)| == |s|
    ensures forall k :: 0 <= k < |s| ==> Int64s(s)[k] == s[k]
  {
  }
}
