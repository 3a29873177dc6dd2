/*
 * Shared definitions (common/defines.h): screen directions, the registry
 * record SMonitor, and the 32-bit integer range the C++ `int` fields have.
 */
module Defines {

  datatype Option<T> = None | Some(value: T)

  const PORT: int := 55555

  const INT32_MIN: int := -0x8000_0000
  const INT32_MAX: int := 0x7fff_ffff
  type Int32 = x: int | INT32_MIN <= x <= INT32_MAX

  /** Two's-complement wrap-around of a 32-bit `int` addition. */
  function Wrap32(v: int): (r: Int32)
    ensures INT32_MIN <= v <= INT32_MAX ==> r == v
    ensures (r - v) % 0x1_0000_0000 == 0
  {
    var m := (v - INT32_MIN) % 0x1_0000_0000;
    m + INT32_MIN
  }

  // eScreenDirections: where a peer screen sits relative to the host.
  const SCREEN_RIGHT: int := 0
  const SCREEN_LEFT: int := 1
  const SCREEN_TOP: int := 2
  const SCREEN_BOTTOM: int := 3
  /** The sentinel past the four directions: the host owns input. */
  const SCREEN_END: int := 4

  predicate IsDirection(d: int) {
    SCREEN_RIGHT <= d < SCREEN_END
  }

  /** The four directions are 0..3 and SCREEN_END is none of them. */
  lemma DirectionValues(d: int)
    ensures IsDirection(d) <==> d == SCREEN_RIGHT || d == SCREEN_LEFT || d == SCREEN_TOP || d == SCREEN_BOTTOM
    ensures !IsDirection(SCREEN_END)
  {
  }

  // eAxis is used by the observer and the server but declared in none of
  // their headers; it is modelled with two values.
  const X_AXIS: int := 0
  const Y_AXIS: int := 1

  /** A socket handle; INVALID_SOCKET is kept apart from every real one. */
  datatype Socket = InvalidSocket | Socket(handle: nat)

  /** SMonitor: one registered peer screen. The `neighbors` map is not used
      by the core and is not modelled. The size fields are C++ `int`s. */
  datatype Monitor = Monitor(width: Int32, height: Int32, direction: int, clientSocket: Socket)

  /** SMonitor(): what `operator[]` inserts for a missing key. */
  function DefaultMonitor(): (m: Monitor)
    ensures m.width == 0 && m.height == 0 && m.direction == 0
    ensures m.clientSocket == InvalidSocket
  {
    Monitor(0, 0, 0, InvalidSocket)
  }
}
