/** Addresses, byte strings and the millisecond clock shared by the other modules. */
module Net {
  datatype Option<+T> = None | Some(value: T)

  type Octet = n: nat | n < 256
  type Bytes = seq<Octet>

  /** An IP address by its numeric value. Its text is a one-to-one image of the value,
      so comparing texts is comparing values. */
  datatype Ip = V4(bits: nat) | V6(bits: nat) {
    /** 127.0.0.0/8 or ::1. */
    predicate IsLoopback() {
      match this
      case V4(n) => n / 0x100_0000 == 127
      case V6(n) => n == 1
    }
  }

  datatype Addr = Addr(ip: Ip, port: nat)

  /** The address of a peer that has not been heard from: 0.0.0.0:0. */
  const UNSPECIFIED := Addr(V4(0), 0)

  /** Milliseconds from `since` to `now`, saturating at zero. */
  function Elapsed(since: int, now: int): nat {
    if now < since then 0 else now - since
  }

  /** `since.elapsed().as_secs() > k`: whole seconds are truncated. */
  predicate SecsExceed(since: int, now: int, k: nat) {
    Elapsed(since, now) / 1000 > k
  }

  /** `x as i32` for an unsigned millisecond count: the low 32 bits in two's complement. */
  function AsI32(x: nat): int {
    var low := x % 0x1_0000_0000;
    if low < 0x8000_0000 then low else low - 0x1_0000_0000
  }

  /** Every event happens in the `length` ms from `from` on. */
  ghost predicate Within<E(!new)>(events: seq<E>, clock: E -> int, from: int, length: int) {
    forall i :: 0 <= i < |events| ==> from <= clock(events[i]) < from + length
  }
}
