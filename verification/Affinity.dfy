/** Session affinity: seconds in 32-bit arithmetic to whole minutes between 1 and 60. */
module Affinity {
  import opened Basics
  import opened CloudState

  type int32 = x: int | -0x8000_0000 <= x < 0x8000_0000

  /** Two's-complement wrap-around of Go's int32 addition. */
  function Wrap32(x: int): int32 {
    (x + 0x8000_0000) % 0x1_0000_0000 - 0x8000_0000
  }

  /** Go's integer division, which truncates toward zero. */
  function TruncDiv(a: int, b: int): int
    requires b > 0
  {
    if a >= 0 then a / b else -((-a) / b)
  }

  /** The ELB persistence timeout for a Kubernetes timeout in seconds. */
  function Minutes(seconds: int32): int {
    var minutes := TruncDiv(Wrap32(seconds + 59), 60);
    if minutes < 1 then 1 else if minutes > 60 then 60 else minutes
  }

  /** `clientIP` is the affinity setting; the timeout may be absent. */
  function DesiredPersistence(clientIP: bool, timeout: Option<int32>): Option<Persistence> {
    if !clientIP then None
    else Some(Persistence("SOURCE_IP", if timeout.Some? then Minutes(timeout.value) else 0))
  }

  /** `m` is the least number of minutes in 1..60 that covers `seconds`, or 60 if none does. */
  ghost predicate LeastCover(seconds: int, m: int) {
    && 1 <= m <= 60
    && (60 * m >= seconds || m == 60)
    && forall k :: 1 <= k < m ==> 60 * k < seconds
  }

  /** The largest timeout for which adding 59 does not wrap. */
  const LAST_EXACT: int := 2147483588

  /** The conversion is the least covering minute exactly up to the point where the addition wraps. */
  lemma MinutesLeastCover(seconds: int32)
    ensures LeastCover(seconds, Minutes(seconds)) <==> seconds <= LAST_EXACT
    ensures seconds > LAST_EXACT ==> Minutes(seconds) == 1
  {
  }

  lemma MinutesMonotone(a: int32, b: int32)
    requires a <= b <= LAST_EXACT
    ensures Minutes(a) <= Minutes(b)
  {
  }
}
