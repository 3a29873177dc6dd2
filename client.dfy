/*
 * The client (client/client.h, client/client.cpp): registration with the
 * server and the listener loop that replays the server's packets on this
 * machine. The input provider the client owns by value is abstract here:
 * its cursor is state of the client, moveByOffset adds the offsets with
 * 32-bit wrap-around, and getPlatformKeyCode is a function fixed when the
 * client is built. Sends are recorded in `sent` whether or not the network
 * takes them, since the client only logs a failed send.
 */
module Client {

  import opened Defines
  import opened Packet
  import opened KeyMappings

  const CLIENT_BUFFER_SIZE: nat := 1024

  /** What the listener asks the input provider to synthesise. */
  datatype Injection = Click(key: Int32) | KeyPress(code: int)

  /** recv into the 1024-byte listener buffer. */
  predicate ValidClientRecv(r: RecvResult) {
    r.Received? ==> 0 < |r.data| <= CLIENT_BUFFER_SIZE
  }

  /** The reply struct after recv: the received bytes over whatever the
      uninitialised SPacketResponse held. */
  function ReplyBuffer(data: seq<Byte>, stale: seq<Byte>): (buf: seq<Byte>)
    requires |data| <= RESPONSE_SIZE && |stale| == RESPONSE_SIZE
    ensures |buf| == RESPONSE_SIZE && buf[..|data|] == data
    ensures buf[|data|..] == stale[|data|..]
  {
    data + stale[|data|..]
  }

  /** The reply connectToServer accepts: a SUCCESS_RESPONSE header and a
      true status. */
  predicate RegistrationAccepted(buf: seq<Byte>)
    requires |buf| >= RESPONSE_SIZE
    ensures RegistrationAccepted(buf) <==> HeaderOf(buf) == HEADER_SUCCESS_RESPONSE && buf[4] != 0
  {
    var reply := DecodeResponse(buf);
    reply.header == HEADER_SUCCESS_RESPONSE && reply.status
  }

  /** The listener buffer after recv. The 1024-byte array is declared
      anew on every pass of the loop and never cleared, so the bytes past
      those received are whatever the fresh array held: `stale`, an
      arbitrary image given per pass. */
  function ListenerBuffer(data: seq<Byte>, stale: seq<Byte>): (r: seq<Byte>)
    requires |data| <= CLIENT_BUFFER_SIZE && |stale| == CLIENT_BUFFER_SIZE
    ensures |r| == CLIENT_BUFFER_SIZE && r[..|data|] == data && r[|data|..] == stale[|data|..]
  {
    data + stale[|data|..]
  }

  /** The client state the listener loop reads and writes. */
  datatype Session = Session(listening: bool, cursorX: Int32, cursorY: Int32,
                             sent: seq<Packet>, injected: seq<Injection>)

  predicate IsClick(key: int) {
    key == KEY_LCLICK || key == KEY_RCLICK
  }

  /** The switch on the header of a freshly filled buffer: at most one
      packet sent or one injection made, the records only grow, and the
      loop flag is left alone. */
  function Dispatch(s: Session, buffer: seq<Byte>, keyCode: Int32 -> int): (t: Session)
    requires |buffer| == CLIENT_BUFFER_SIZE
    ensures t.listening == s.listening
    ensures s.sent <= t.sent && s.injected <= t.injected
    ensures |t.sent| + |t.injected| <= |s.sent| + |s.injected| + 1
    ensures HeaderOf(buffer) != HEADER_MOUSE_MOVE ==> t.sent == s.sent
    ensures HeaderOf(buffer) != HEADER_KEYBOARD_INPUT ==> t.injected == s.injected
  {
    var header := HeaderOf(buffer);
    if header == HEADER_MOUSE_MOVE then
      var p := DecodeMouseMove(buffer);
      var x, y := Wrap32(s.cursorX + p.xDelta), Wrap32(s.cursorY + p.yDelta);
      s.(cursorX := x, cursorY := y, sent := s.sent + [MouseMoveResponse(HEADER_MOUSE_MOVE_RESPONSE, x, y)])
    else if header == HEADER_KEYBOARD_INPUT then
      var p := DecodeKeyboardInput(buffer);
      if IsClick(p.key) then s.(injected := s.injected + [Click(p.key)])
      else if keyCode(p.key) >= 0 then s.(injected := s.injected + [KeyPress(keyCode(p.key))])
      else s
    else s
  }

  /** One pass of the listener loop: received bytes land at the front of
      the pass's fresh buffer and are dispatched; a close or an error stops
      the loop and does nothing else. */
  function Step(s: Session, r: RecvResult, stale: seq<Byte>, keyCode: Int32 -> int): (t: Session)
    requires ValidClientRecv(r) && |stale| == CLIENT_BUFFER_SIZE
    ensures r.Received? ==> t.listening == s.listening
    ensures !r.Received? ==> !t.listening && t.sent == s.sent && t.injected == s.injected
                             && t.cursorX == s.cursorX && t.cursorY == s.cursorY
    ensures s.sent <= t.sent && s.injected <= t.injected
  {
    if r.Received? then Dispatch(s, ListenerBuffer(r.data, stale), keyCode)
    else s.(listening := false)
  }

  predicate AllValid(incoming: seq<RecvResult>) {
    forall i | 0 <= i < |incoming| :: ValidClientRecv(incoming[i])
  }

  /** One image of the fresh buffer per pass. */
  predicate Images(stale: seq<seq<Byte>>) {
    forall i | 0 <= i < |stale| :: |stale[i]| == CLIENT_BUFFER_SIZE
  }

  /** The listener loop over a run of recv outcomes, the i-th pass
      starting from the buffer image `stale[i]`: passes stop once
      `listening` is false. */
  function Run(s: Session, incoming: seq<RecvResult>, stale: seq<seq<Byte>>, keyCode: Int32 -> int): (t: Session)
    requires AllValid(incoming) && |stale| == |incoming| && Images(stale)
    ensures !s.listening ==> t == s
    ensures t.listening ==> s.listening
    ensures s.sent <= t.sent && s.injected <= t.injected
    decreases |incoming|
  {
    if |incoming| == 0 then s
    else
      var n := |incoming| - 1;
      var before := Run(s, incoming[..n], stale[..n], keyCode);
      if before.listening then Step(before, incoming[n], stale[n], keyCode) else before
  }

  /** A single outcome is one pass when the loop is listening. */
  lemma RunOne(s: Session, a: RecvResult, sa: seq<Byte>, keyCode: Int32 -> int)
    requires ValidClientRecv(a) && |sa| == CLIENT_BUFFER_SIZE && s.listening
    ensures Run(s, [a], [sa], keyCode) == Step(s, a, sa, keyCode)
  {
    assert [a][..0] == [] && [sa][..0] == [];
  }

  /** Two outcomes in a row: the second is handled only if the first
      left the loop listening. */
  lemma RunTwo(s: Session, a: RecvResult, b: RecvResult, sa: seq<Byte>, sb: seq<Byte>, keyCode: Int32 -> int)
    requires ValidClientRecv(a) && ValidClientRecv(b) && s.listening
    requires |sa| == CLIENT_BUFFER_SIZE && |sb| == CLIENT_BUFFER_SIZE
    ensures var t := Step(s, a, sa, keyCode);
            Run(s, [a, b], [sa, sb], keyCode) == if t.listening then Step(t, b, sb, keyCode) else t
  {
    RunOne(s, a, sa, keyCode);
    assert [a, b][..1] == [a] && [sa, sb][..1] == [sa];
  }

  /** A MouseMove moves the cursor by the packet's offsets and sends exactly
      one MOUSE_MOVE_RESPONSE carrying the new position; nothing is
      injected. */
  lemma MouseMoveStep(s: Session, data: seq<Byte>, stale: seq<Byte>, keyCode: Int32 -> int)
    requires |stale| == CLIENT_BUFFER_SIZE && 0 < |data| <= CLIENT_BUFFER_SIZE
    requires HeaderOf(ListenerBuffer(data, stale)) == HEADER_MOUSE_MOVE
    ensures var p := DecodeMouseMove(ListenerBuffer(data, stale));
            var t := Step(s, Received(data), stale, keyCode);
            t.cursorX == Wrap32(s.cursorX + p.xDelta) && t.cursorY == Wrap32(s.cursorY + p.yDelta)
            && t.sent == s.sent + [MouseMoveResponse(HEADER_MOUSE_MOVE_RESPONSE, t.cursorX, t.cursorY)]
            && t.injected == s.injected && t.listening == s.listening
  {
  }

  /** A KeyboardInput packet injects a click for the two click keys, the
      platform code when it is not negative, and nothing otherwise; nothing
      is sent and the cursor does not move. */
  lemma KeyboardStep(s: Session, data: seq<Byte>, stale: seq<Byte>, keyCode: Int32 -> int)
    requires |stale| == CLIENT_BUFFER_SIZE && 0 < |data| <= CLIENT_BUFFER_SIZE
    requires HeaderOf(ListenerBuffer(data, stale)) == HEADER_KEYBOARD_INPUT
    ensures var key := DecodeKeyboardInput(ListenerBuffer(data, stale)).key;
            var t := Step(s, Received(data), stale, keyCode);
            t.sent == s.sent && t.cursorX == s.cursorX && t.cursorY == s.cursorY && t.listening == s.listening
            && t.injected == s.injected + if IsClick(key) then [Click(key)]
                                          else if keyCode(key) >= 0 then [KeyPress(keyCode(key))] else []
  {
  }

  /** Any other header changes nothing; a close or an error only stops the
      loop. */
  lemma OtherStep(s: Session, r: RecvResult, stale: seq<Byte>, keyCode: Int32 -> int)
    requires |stale| == CLIENT_BUFFER_SIZE && ValidClientRecv(r)
    requires r.Received? ==> HeaderOf(ListenerBuffer(r.data, stale)) != HEADER_MOUSE_MOVE
                             && HeaderOf(ListenerBuffer(r.data, stale)) != HEADER_KEYBOARD_INPUT
    ensures r.Received? ==> Step(s, r, stale, keyCode) == s
    ensures !r.Received? ==> Step(s, r, stale, keyCode) == s.(listening := false)
  {
  }

  /** The loop stops at the first close or error: after it nothing
      changes. */
  lemma {:induction false} RunStopsAtClose(s: Session, incoming: seq<RecvResult>, stale: seq<seq<Byte>>, i: nat,
                                           keyCode: Int32 -> int)
    requires AllValid(incoming) && |stale| == |incoming| && Images(stale)
    requires i < |incoming| && !incoming[i].Received?
    ensures !Run(s, incoming, stale, keyCode).listening
    ensures Run(s, incoming, stale, keyCode) == Run(s, incoming[..i + 1], stale[..i + 1], keyCode)
    decreases |incoming|
  {
    if |incoming| == i + 1 {
      assert incoming[..i + 1] == incoming && stale[..i + 1] == stale;
    } else {
      var n := |incoming| - 1;
      var front, frontStale := incoming[..n], stale[..n];
      assert front[..i + 1] == incoming[..i + 1] && frontStale[..i + 1] == stale[..i + 1];
      RunStopsAtClose(s, front, frontStale, i, keyCode);
    }
  }

  /** From s to t the records only grow, every packet added is a
      MOUSE_MOVE_RESPONSE, and every injection added is a click on a click
      key or a non-negative platform code. */
  predicate OnlyEchoesAndInjections(s: Session, t: Session) {
    s.sent <= t.sent && s.injected <= t.injected
    && (forall i | |s.sent| <= i < |t.sent| :: t.sent[i].MouseMoveResponse?
                                              && t.sent[i].header == HEADER_MOUSE_MOVE_RESPONSE)
    && (forall i | |s.injected| <= i < |t.injected| ::
          (t.injected[i].Click? ==> IsClick(t.injected[i].key))
          && (t.injected[i].KeyPress? ==> t.injected[i].code >= 0))
  }

  lemma OnlyEchoesAndInjectionsChain(a: Session, b: Session, c: Session)
    requires OnlyEchoesAndInjections(a, b) && OnlyEchoesAndInjections(b, c)
    ensures OnlyEchoesAndInjections(a, c)
  {
    forall i | |a.sent| <= i < |c.sent|
      ensures c.sent[i].MouseMoveResponse? && c.sent[i].header == HEADER_MOUSE_MOVE_RESPONSE
    {
      if i < |b.sent| {
        assert c.sent[i] == b.sent[i];
      }
    }
    forall i | |a.injected| <= i < |c.injected|
      ensures (c.injected[i].Click? ==> IsClick(c.injected[i].key))
              && (c.injected[i].KeyPress? ==> c.injected[i].code >= 0)
    {
      if i < |b.injected| {
        assert c.injected[i] == b.injected[i];
      }
    }
  }

  /** One pass adds at most one echo or one well-formed injection. */
  lemma StepOutputs(s: Session, r: RecvResult, stale: seq<Byte>, keyCode: Int32 -> int)
    requires ValidClientRecv(r) && |stale| == CLIENT_BUFFER_SIZE
    ensures OnlyEchoesAndInjections(s, Step(s, r, stale, keyCode))
  {
  }

  /** Everything the loop sends is a MOUSE_MOVE_RESPONSE, everything it
      injects is a click on a click key or a non-negative platform code, and
      both records only grow. */
  lemma {:induction false} RunOutputs(s: Session, incoming: seq<RecvResult>, stale: seq<seq<Byte>>, keyCode: Int32 -> int)
    requires AllValid(incoming) && |stale| == |incoming| && Images(stale)
    ensures OnlyEchoesAndInjections(s, Run(s, incoming, stale, keyCode))
    decreases |incoming|
  {
    if |incoming| == 0 {
      assert Run(s, incoming, stale, keyCode) == s;
    } else {
      var n := |incoming| - 1;
      RunOutputs(s, incoming[..n], stale[..n], keyCode);
      var before := Run(s, incoming[..n], stale[..n], keyCode);
      if before.listening {
        StepOutputs(before, incoming[n], stale[n], keyCode);
        OnlyEchoesAndInjectionsChain(s, before, Step(before, incoming[n], stale[n], keyCode));
      }
    }
  }

  /** The position in every echo is where the cursor stood right after the
      move: the last echo of a run carries the final position whenever the
      run ends on a move. */
  lemma StepEchoIsPosition(s: Session, r: RecvResult, stale: seq<Byte>, keyCode: Int32 -> int)
    requires ValidClientRecv(r) && |stale| == CLIENT_BUFFER_SIZE
    ensures var t := Step(s, r, stale, keyCode);
            (t.sent == s.sent && t.cursorX == s.cursorX && t.cursorY == s.cursorY)
            || t.sent == s.sent + [MouseMoveResponse(HEADER_MOUSE_MOVE_RESPONSE, t.cursorX, t.cursorY)]
  {
  }

  class Client {
    const screenWidth: Int32
    const screenHeight: Int32
    /** The input provider's getPlatformKeyCode. */
    const platformKeyCode: Int32 -> int
    var listening: bool
    var socketClosed: bool
    /** The input provider's cursor. */
    var cursorX: Int32
    var cursorY: Int32
    var sent: seq<Packet>
    var injected: seq<Injection>

    constructor (width: Int32, height: Int32, keyCode: Int32 -> int, x: Int32, y: Int32)
      ensures screenWidth == width && screenHeight == height && platformKeyCode == keyCode
      ensures !listening && !socketClosed && cursorX == x && cursorY == y && sent == [] && injected == []
    {
      screenWidth, screenHeight, platformKeyCode := width, height, keyCode;
      listening, socketClosed := false, false;
      cursorX, cursorY := x, y;
      sent, injected := [], [];
    }

    function State(): Session
      reads this
    {
      Session(listening, cursorX, cursorY, sent, injected)
    }

    /** connectToServer: a direction of SCREEN_END or more is refused before
        connecting; a failed connect closes the socket; otherwise the
        AddClient packet goes out and the call succeeds, and listening
        starts, exactly when the reply has the SUCCESS_RESPONSE header and
        a true status. */
    method ConnectToServer(screenDirection: Int32, identifier: seq<Byte>, connectOk: bool,
                           reply: RecvResult, stale: seq<Byte>) returns (ok: bool)
      requires |identifier| == IDENTIFIER_SIZE && |stale| == RESPONSE_SIZE
      requires reply.Received? ==> 0 < |reply.data| <= RESPONSE_SIZE
      modifies this`listening, this`sent, this`socketClosed
      ensures screenDirection >= SCREEN_END ==> sent == old(sent) && socketClosed == old(socketClosed)
      ensures screenDirection < SCREEN_END && !connectOk ==> sent == old(sent) && socketClosed
      ensures screenDirection < SCREEN_END && connectOk ==>
                sent == old(sent) + [AddClient(HEADER_ADD_CLIENT, identifier, screenWidth, screenHeight, screenDirection)]
                && socketClosed == old(socketClosed)
      ensures ok <==> screenDirection < SCREEN_END && connectOk && reply.Received?
                      && RegistrationAccepted(ReplyBuffer(reply.data, stale))
      ensures listening == (old(listening) || ok)
    {
      if screenDirection >= SCREEN_END {
        return false;
      }
      if !connectOk {
        socketClosed := true;
        return false;
      }
      var packet := AddClient(HEADER_ADD_CLIENT, identifier, screenWidth, screenHeight, screenDirection);
      sent := sent + [packet];
      ok := false;
      if reply.Received? {
        var response := DecodeResponse(ReplyBuffer(reply.data, stale));
        if response.header == HEADER_SUCCESS_RESPONSE && response.status {
          listening := true;
          ok := true;
        }
      }
    }

    /** The listener thread's loop over a run of recv outcomes, the i-th
        pass's fresh buffer holding `stale[i]` before recv; it returns how
        many outcomes it consumed. */
    method Listen(incoming: seq<RecvResult>, stale: seq<seq<Byte>>) returns (consumed: nat)
      requires AllValid(incoming) && |stale| == |incoming| && Images(stale)
      modifies this`listening, this`cursorX, this`cursorY, this`sent, this`injected
      ensures consumed <= |incoming| && (consumed == |incoming| || !listening)
      ensures State() == Run(old(State()), incoming[..consumed], stale[..consumed], platformKeyCode)
      ensures forall i | 0 <= i < consumed :: incoming[i].Received? || (i == consumed - 1 && !listening)
    {
      consumed := 0;
      ghost var start := State();
      while listening && consumed < |incoming|
        invariant consumed <= |incoming|
        invariant State() == Run(start, incoming[..consumed], stale[..consumed], platformKeyCode)
        invariant forall i | 0 <= i < consumed :: incoming[i].Received? || (i == consumed - 1 && !listening)
        decreases |incoming| - consumed
      {
        assert incoming[..consumed + 1][..consumed] == incoming[..consumed];
        assert stale[..consumed + 1][..consumed] == stale[..consumed];
        ReceiveOne(incoming[consumed], stale[consumed]);
        consumed := consumed + 1;
      }
    }

    /** One pass of the listener loop: a fresh buffer holding `stale`, recv
        fills its front and the header picks the action, or a close or error
        stops listening. */
    method ReceiveOne(r: RecvResult, stale: seq<Byte>)
      requires |stale| == CLIENT_BUFFER_SIZE && ValidClientRecv(r)
      modifies this`listening, this`cursorX, this`cursorY, this`sent, this`injected
      ensures State() == Step(old(State()), r, stale, platformKeyCode)
    {
      if r.Received? {
        var buffer := r.data + stale[|r.data|..];
        var header := HeaderOf(buffer);
        if header == HEADER_MOUSE_MOVE {
          var packet := DecodeMouseMove(buffer);
          MoveByOffset(packet.xDelta, packet.yDelta);
          sent := sent + [MouseMoveResponse(HEADER_MOUSE_MOVE_RESPONSE, cursorX, cursorY)];
        } else if header == HEADER_KEYBOARD_INPUT {
          var packet := DecodeKeyboardInput(buffer);
          if packet.key == KEY_LCLICK || packet.key == KEY_RCLICK {
            injected := injected + [Click(packet.key)];
          } else {
            var mappedKey := platformKeyCode(packet.key);
            if mappedKey >= 0 {
              injected := injected + [KeyPress(mappedKey)];
            }
          }
        }
      } else {
        listening := false;
      }
    }

    /** The input provider's moveByOffset: position plus offsets, with
        32-bit wrap-around. */
    method MoveByOffset(offsetX: Int32, offsetY: Int32)
      modifies this`cursorX, this`cursorY
      ensures cursorX == Wrap32(old(cursorX) + offsetX) && cursorY == Wrap32(old(cursorY) + offsetY)
    {
      cursorX, cursorY := Wrap32(cursorX + offsetX), Wrap32(cursorY + offsetY);
    }
  }
}
