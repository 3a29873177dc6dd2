/*
 * Wire packets of the KVM protocol (common/packet.h): packed records whose
 * first four bytes are an int32 header tag, in the machine's native byte
 * order. The model fixes that order to little-endian, as on x86, and uses
 * two's complement for signed fields; `int` and enum fields are 4 bytes,
 * `bool` is 1 byte.
 */
module Packet {

  import opened Defines

  type Byte = b: int | 0 <= b < 256

  // eHeaders
  const HEADER_ADD_CLIENT: Int32 := 0
  const HEADER_MOUSE_MOVE: Int32 := 1
  const HEADER_MOUSE_MOVE_RESPONSE: Int32 := 2
  const HEADER_KEYBOARD_INPUT: Int32 := 3
  const HEADER_SUCCESS_RESPONSE: Int32 := 4

  const IDENTIFIER_SIZE: nat := 64

  // Packed sizes (no padding).
  const ADD_CLIENT_SIZE: nat := 80
  const MOUSE_MOVE_SIZE: nat := 12
  const MOUSE_MOVE_RESPONSE_SIZE: nat := 12
  const KEYBOARD_INPUT_SIZE: nat := 12
  const RESPONSE_SIZE: nat := 5

  /** The five packet structs. `key` and `os` hold the raw values of the
      4-byte enums eKey and eOS; SPacketKeyboardInput has no pressed flag. */
  datatype Packet =
    | AddClient(header: Int32, identifier: seq<Byte>, screenWidth: Int32, screenHeight: Int32, direction: Int32)
    | MouseMove(header: Int32, xDelta: Int32, yDelta: Int32)
    | MouseMoveResponse(header: Int32, x: Int32, y: Int32)
    | KeyboardInput(header: Int32, key: Int32, os: Int32)
    | Response(header: Int32, status: bool)

  /** Every field has its declared width: the identifier is a 64-byte array. */
  predicate WellFormed(p: Packet) {
    p.AddClient? ==> |p.identifier| == IDENTIFIER_SIZE
  }

  function Size(p: Packet): nat {
    match p
    case AddClient(_, _, _, _, _) => ADD_CLIENT_SIZE
    case MouseMove(_, _, _) => MOUSE_MOVE_SIZE
    case MouseMoveResponse(_, _, _) => MOUSE_MOVE_RESPONSE_SIZE
    case KeyboardInput(_, _, _) => KEYBOARD_INPUT_SIZE
    case Response(_, _) => RESPONSE_SIZE
  }

  /** The header tag each packet kind is dispatched on. */
  function TagOf(p: Packet): Int32 {
    match p
    case AddClient(_, _, _, _, _) => HEADER_ADD_CLIENT
    case MouseMove(_, _, _) => HEADER_MOUSE_MOVE
    case MouseMoveResponse(_, _, _) => HEADER_MOUSE_MOVE_RESPONSE
    case KeyboardInput(_, _, _) => HEADER_KEYBOARD_INPUT
    case Response(_, _) => HEADER_SUCCESS_RESPONSE
  }

  // ---------------------------------------------------------------------
  // Scalars

  /** Little-endian two's-complement bytes of a 32-bit integer. */
  function EncodeInt32(x: Int32): (r: seq<Byte>)
    ensures |r| == 4
  {
    var u: int := if x < 0 then x as int + 0x1_0000_0000 else x as int;
    [u % 0x100, (u / 0x100) % 0x100, (u / 0x1_0000) % 0x100, u / 0x100_0000]
  }

  /** The unsigned value of four little-endian bytes. */
  function Unsigned32(b: seq<Byte>): int
    requires |b| >= 4
  {
    b[0] as int + 0x100 * b[1] as int + 0x1_0000 * b[2] as int + 0x100_0000 * b[3] as int
  }

  function DecodeInt32(b: seq<Byte>): Int32
    requires |b| >= 4
  {
    var u := Unsigned32(b);
    if u > INT32_MAX then u - 0x1_0000_0000 else u
  }

  lemma DecodeEncodeInt32(x: Int32, rest: seq<Byte>)
    ensures DecodeInt32(EncodeInt32(x) + rest) == x
  {
    var u: int := if x < 0 then x as int + 0x1_0000_0000 else x as int;
    var b := EncodeInt32(x) + rest;
    var q1, q2, q3 := u / 0x100, u / 0x1_0000, u / 0x100_0000;
    DivMod8(q1, q2, q1 % 0x100);
    DivMod8(q2, q3, q2 % 0x100);
    assert u == 0x100 * q1 + u % 0x100;
    assert Unsigned32(b) == u;
  }

  /** Every four bytes are the encoding of exactly one int32. */
  lemma EncodeDecodeInt32(b: seq<Byte>)
    requires |b| == 4
    ensures EncodeInt32(DecodeInt32(b)) == b
  {
    var u := Unsigned32(b);
    var x := DecodeInt32(b);
    assert (if x < 0 then x as int + 0x1_0000_0000 else x as int) == u;
    var q1 := b[1] as int + 0x100 * b[2] as int + 0x1_0000 * b[3] as int;
    var q2 := b[2] as int + 0x100 * b[3] as int;
    DivMod8(u, q1, b[0]);
    DivMod16(u, q2, b[0] as int + 0x100 * b[1] as int);
    DivMod8(q2, b[3], b[2]);
    DivMod24(u, b[3], b[0] as int + 0x100 * b[1] as int + 0x1_0000 * b[2] as int);
    DivMod8(q1, q2, b[1]);
    assert (u / 0x100) % 0x100 == b[1];
  }

  lemma DivMod8(n: int, q: int, r: int)
    requires 0 <= r < 0x100 && n == q * 0x100 + r
    ensures n / 0x100 == q && n % 0x100 == r
  {
  }

  lemma DivMod16(n: int, q: int, r: int)
    requires 0 <= r < 0x1_0000 && n == q * 0x1_0000 + r
    ensures n / 0x1_0000 == q && n % 0x1_0000 == r
  {
  }

  lemma DivMod24(n: int, q: int, r: int)
    requires 0 <= r < 0x100_0000 && n == q * 0x100_0000 + r
    ensures n / 0x100_0000 == q && n % 0x100_0000 == r
  {
  }

  /** A C++ bool is stored as one byte, 1 for true and 0 for false. */
  function EncodeBool(v: bool): (r: seq<Byte>)
    ensures |r| == 1
  {
    [if v then 1 else 0]
  }

  function DecodeBool(b: Byte): bool {
    b != 0
  }

  // ---------------------------------------------------------------------
  // Packets

  function Encode(p: Packet): (r: seq<Byte>)
    requires WellFormed(p)
    ensures |r| == Size(p)
  {
    match p
    case AddClient(h, id, w, ht, d) =>
      EncodeInt32(h) + id + EncodeInt32(w) + EncodeInt32(ht) + EncodeInt32(d)
    case MouseMove(h, x, y) => EncodeInt32(h) + EncodeInt32(x) + EncodeInt32(y)
    case MouseMoveResponse(h, x, y) => EncodeInt32(h) + EncodeInt32(x) + EncodeInt32(y)
    case KeyboardInput(h, k, os) => EncodeInt32(h) + EncodeInt32(k) + EncodeInt32(os)
    case Response(h, s) => EncodeInt32(h) + EncodeBool(s)
  }

  /** The header a receiver reads: the first four bytes of its buffer. */
  function HeaderOf(buf: seq<Byte>): Int32
    requires |buf| >= 4
  {
    DecodeInt32(buf)
  }

  /** memcpy of sizeof(SPacketAddClient) bytes out of a receive buffer. */
  function DecodeAddClient(buf: seq<Byte>): (p: Packet)
    requires |buf| >= ADD_CLIENT_SIZE
    ensures p.AddClient? && WellFormed(p)
  {
    AddClient(DecodeInt32(buf), buf[4..68], DecodeInt32(buf[68..]), DecodeInt32(buf[72..]), DecodeInt32(buf[76..]))
  }

  function DecodeMouseMove(buf: seq<Byte>): (p: Packet)
    requires |buf| >= MOUSE_MOVE_SIZE
    ensures p.MouseMove?
  {
    MouseMove(DecodeInt32(buf), DecodeInt32(buf[4..]), DecodeInt32(buf[8..]))
  }

  function DecodeMouseMoveResponse(buf: seq<Byte>): (p: Packet)
    requires |buf| >= MOUSE_MOVE_RESPONSE_SIZE
    ensures p.MouseMoveResponse?
  {
    MouseMoveResponse(DecodeInt32(buf), DecodeInt32(buf[4..]), DecodeInt32(buf[8..]))
  }

  function DecodeKeyboardInput(buf: seq<Byte>): (p: Packet)
    requires |buf| >= KEYBOARD_INPUT_SIZE
    ensures p.KeyboardInput?
  {
    KeyboardInput(DecodeInt32(buf), DecodeInt32(buf[4..]), DecodeInt32(buf[8..]))
  }

  function DecodeResponse(buf: seq<Byte>): (p: Packet)
    requires |buf| >= RESPONSE_SIZE
    ensures p.Response?
  {
    Response(DecodeInt32(buf), DecodeBool(buf[4]))
  }

  /** Header dispatch as the round-trip lemmas state it: the struct the
      bytes are read as is chosen by the header; an unknown header, or too
      few bytes for the chosen struct, gives None. Neither end has such a
      function: each switches on the header of its fixed 1024-byte buffer,
      so the size test here is never false for a packet either end reads. */
  function Parse(buf: seq<Byte>): (r: Option<Packet>)
    requires |buf| >= 4
    ensures r.Some? ==> WellFormed(r.value) && r.value.header == HeaderOf(buf)
                        && TagOf(r.value) == HeaderOf(buf) && Size(r.value) <= |buf|
  {
    var h := HeaderOf(buf);
    if h == HEADER_ADD_CLIENT && |buf| >= ADD_CLIENT_SIZE then Some(DecodeAddClient(buf))
    else if h == HEADER_MOUSE_MOVE && |buf| >= MOUSE_MOVE_SIZE then Some(DecodeMouseMove(buf))
    else if h == HEADER_MOUSE_MOVE_RESPONSE && |buf| >= MOUSE_MOVE_RESPONSE_SIZE then Some(DecodeMouseMoveResponse(buf))
    else if h == HEADER_KEYBOARD_INPUT && |buf| >= KEYBOARD_INPUT_SIZE then Some(DecodeKeyboardInput(buf))
    else if h == HEADER_SUCCESS_RESPONSE && |buf| >= RESPONSE_SIZE then Some(DecodeResponse(buf))
    else None
  }

  /** SPacketAddClient(): every field zero, the identifier zero-filled. */
  function DefaultAddClient(): (p: Packet)
    ensures WellFormed(p)
  {
    AddClient(0, seq(IDENTIFIER_SIZE, _ => 0), 0, 0, 0)
  }

  /** SPacketMouseMove(): header -1, no motion. */
  function DefaultMouseMove(): Packet {
    MouseMove(-1, 0, 0)
  }

  /** What one recv call yields: the bytes it wrote (at least one, at most
      the buffer length), 0 for an orderly close, or an error. */
  datatype RecvResult = Received(data: seq<Byte>) | PeerClosed | RecvFailed

  // ---------------------------------------------------------------------
  // Round trips

  /** The first four bytes of every encoded packet are its header. */
  lemma HeaderOfEncode(p: Packet, rest: seq<Byte>)
    requires WellFormed(p)
    ensures |Encode(p) + rest| >= 4 && HeaderOf(Encode(p) + rest) == p.header
  {
    var e := Encode(p);
    assert e == EncodeInt32(p.header) + e[4..];
    assert e + rest == EncodeInt32(p.header) + (e[4..] + rest);
    DecodeEncodeInt32(p.header, e[4..] + rest);
  }

  /** Decoding the bytes of any packet, followed by whatever else the
      receive buffer holds, gives back the packet, field for field. */
  lemma DecodeEncode(p: Packet, rest: seq<Byte>)
    requires WellFormed(p)
    ensures var b := Encode(p) + rest;
      |b| >= Size(p) &&
      match p
      case AddClient(_, _, _, _, _) => DecodeAddClient(b) == p
      case MouseMove(_, _, _) => DecodeMouseMove(b) == p
      case MouseMoveResponse(_, _, _) => DecodeMouseMoveResponse(b) == p
      case KeyboardInput(_, _, _) => DecodeKeyboardInput(b) == p
      case Response(_, _) => DecodeResponse(b) == p
  {
    var b := Encode(p) + rest;
    HeaderOfEncode(p, rest);
    match p
    case AddClient(h, id, w, ht, d) =>
      AddClientFields(p, rest);
    case MouseMove(h, x, y) =>
      ThreeFields(h, x, y, rest);
    case MouseMoveResponse(h, x, y) =>
      ThreeFields(h, x, y, rest);
    case KeyboardInput(h, k, os) =>
      ThreeFields(h, k, os, rest);
    case Response(h, s) =>
      assert b[4] == if s then 1 else 0;
  }

  lemma AddClientFields(p: Packet, rest: seq<Byte>)
    requires p.AddClient? && WellFormed(p)
    ensures var b := Encode(p) + rest;
      |b| >= ADD_CLIENT_SIZE && b[4..68] == p.identifier && DecodeInt32(b[68..]) == p.screenWidth
      && DecodeInt32(b[72..]) == p.screenHeight && DecodeInt32(b[76..]) == p.direction
  {
    var e1, e2, e3 := EncodeInt32(p.screenWidth), EncodeInt32(p.screenHeight), EncodeInt32(p.direction);
    var t3 := e3 + rest;
    var t2 := e2 + t3;
    var t1 := e1 + t2;
    var t0 := p.identifier + t1;
    var b := EncodeInt32(p.header) + t0;
    assert Encode(p) + rest == b;
    assert b[4..] == t0;
    assert t0[..64] == p.identifier && t0[64..] == t1;
    assert t1[4..] == t2 && t2[4..] == t3;
    DecodeEncodeInt32(p.screenWidth, t2);
    DecodeEncodeInt32(p.screenHeight, t3);
    DecodeEncodeInt32(p.direction, rest);
  }

  lemma ThreeFields(a: Int32, x: Int32, y: Int32, rest: seq<Byte>)
    ensures var b := EncodeInt32(a) + EncodeInt32(x) + EncodeInt32(y) + rest;
      |b| >= 12 && DecodeInt32(b[4..]) == x && DecodeInt32(b[8..]) == y
  {
    var b := EncodeInt32(a) + EncodeInt32(x) + EncodeInt32(y) + rest;
    assert b[4..] == EncodeInt32(x) + (EncodeInt32(y) + rest);
    assert b[8..] == EncodeInt32(y) + rest;
    DecodeEncodeInt32(x, EncodeInt32(y) + rest);
    DecodeEncodeInt32(y, rest);
  }

  /** A packet whose header is its kind's tag is recognised by header
      dispatch and decoded to itself. */
  lemma ParseEncode(p: Packet, rest: seq<Byte>)
    requires WellFormed(p) && p.header == TagOf(p)
    ensures |Encode(p) + rest| >= 4 && Parse(Encode(p) + rest) == Some(p)
  {
    HeaderOfEncode(p, rest);
    DecodeEncode(p, rest);
  }

  /** Bytes recognised by header dispatch are exactly the encoding of the
      packet they decode to, up to that packet's size, except that a status
      byte other than 0 and 1 is read as true and re-encoded as 1. */
  lemma EncodeParse(buf: seq<Byte>)
    requires |buf| >= 4 && Parse(buf).Some?
    ensures Encode(Parse(buf).value) == buf[..Size(Parse(buf).value)]
            <==> !Parse(buf).value.Response? || buf[4] <= 1
  {
    var p := Parse(buf).value;
    EncodeDecodeInt32(buf[..4]);
    assert DecodeInt32(buf[..4]) == DecodeInt32(buf);
    match p
    case AddClient(_, _, _, _, _) =>
      EightyBytes(buf);
    case MouseMove(_, _, _) =>
      TwelveBytes(buf);
    case MouseMoveResponse(_, _, _) =>
      TwelveBytes(buf);
    case KeyboardInput(_, _, _) =>
      TwelveBytes(buf);
    case Response(_, s) =>
      assert buf[..5] == buf[..4] + [buf[4]];
      assert Encode(p) == buf[..4] + [if s then 1 else 0];
      if Encode(p) == buf[..5] {
        assert Encode(p)[4] == buf[4];
      }
  }

  lemma EightyBytes(buf: seq<Byte>)
    requires |buf| >= ADD_CLIENT_SIZE
    ensures Encode(DecodeAddClient(buf)) == buf[..ADD_CLIENT_SIZE]
  {
    EncodeDecodeInt32(buf[..4]);
    EncodeDecodeInt32(buf[68..72]);
    EncodeDecodeInt32(buf[72..76]);
    EncodeDecodeInt32(buf[76..80]);
    assert DecodeInt32(buf[..4]) == DecodeInt32(buf);
    assert DecodeInt32(buf[68..72]) == DecodeInt32(buf[68..]);
    assert DecodeInt32(buf[72..76]) == DecodeInt32(buf[72..]);
    assert DecodeInt32(buf[76..80]) == DecodeInt32(buf[76..]);
    assert buf[..80] == buf[..4] + buf[4..68] + buf[68..72] + buf[72..76] + buf[76..80];
  }

  lemma TwelveBytes(buf: seq<Byte>)
    requires |buf| >= 12
    ensures EncodeInt32(DecodeInt32(buf)) + EncodeInt32(DecodeInt32(buf[4..])) + EncodeInt32(DecodeInt32(buf[8..]))
            == buf[..12]
  {
    EncodeDecodeInt32(buf[..4]);
    EncodeDecodeInt32(buf[4..8]);
    EncodeDecodeInt32(buf[8..12]);
    assert DecodeInt32(buf[..4]) == DecodeInt32(buf);
    assert DecodeInt32(buf[4..8]) == DecodeInt32(buf[4..]);
    assert DecodeInt32(buf[8..12]) == DecodeInt32(buf[8..]);
    assert buf[..12] == buf[..4] + buf[4..8] + buf[8..12];
  }

  /** A default-constructed AddClient packet is 80 zero bytes, and so reads
      as an AddClient packet for direction 0. */
  lemma DefaultAddClientIsZeroBytes()
    ensures Encode(DefaultAddClient()) == seq(ADD_CLIENT_SIZE, _ => 0)
    ensures Parse(seq(ADD_CLIENT_SIZE, _ => 0)) == Some(DefaultAddClient())
  {
    var z: seq<Byte> := seq(ADD_CLIENT_SIZE, _ => 0);
    var e := Encode(DefaultAddClient());
    assert EncodeInt32(0) == [0, 0, 0, 0];
    assert forall i | 0 <= i < ADD_CLIENT_SIZE :: e[i] == z[i];
    ParseEncode(DefaultAddClient(), []);
    assert e + [] == z;
  }

  /** A default-constructed MouseMove packet carries header -1, which no
      receiver dispatches on: it is ignored until its header is set. */
  lemma DefaultMouseMoveUnrecognised(rest: seq<Byte>)
    ensures |Encode(DefaultMouseMove()) + rest| >= 4
    ensures Parse(Encode(DefaultMouseMove()) + rest) == None
  {
    HeaderOfEncode(DefaultMouseMove(), rest);
  }
}
