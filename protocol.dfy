/*
 * What the two ends do with each other's packets: the registration
 * exchange, a mouse move split by axis on the server and replayed by the
 * client, the echo that comes back, and a key press. Each packet crosses
 * the wire whole, in one recv.
 */
module Protocol {

  import opened Defines
  import opened Packet
  import opened KeyMappings
  import opened InputObserver
  import Server
  import Client

  /** The AddClient packet a client sends reaches the server's buffer as an
      ADD_CLIENT header followed by the client's direction and screen size. */
  lemma RegistrationRequestArrives(direction: Int32, identifier: seq<Byte>, width: Int32, height: Int32)
    requires |identifier| == IDENTIFIER_SIZE
    ensures var p := AddClient(HEADER_ADD_CLIENT, identifier, width, height, direction);
            var buf := Server.ServerBuffer(Encode(p));
            HeaderOf(buf) == HEADER_ADD_CLIENT && DecodeAddClient(buf) == p
  {
    var p := AddClient(HEADER_ADD_CLIENT, identifier, width, height, direction);
    var zeros := seq(Server.RECV_BUFFER_SIZE - ADD_CLIENT_SIZE, _ => 0);
    assert Server.ServerBuffer(Encode(p)) == Encode(p) + zeros;
    HeaderOfEncode(p, zeros);
    DecodeEncode(p, zeros);
  }

  /** The client accepts the server's registration reply exactly when the
      reply's status says the server inserted the entry. */
  lemma RegistrationReplyRoundTrip(added: bool, stale: seq<Byte>)
    requires |stale| == RESPONSE_SIZE
    ensures Client.RegistrationAccepted(Client.ReplyBuffer(Encode(Response(HEADER_SUCCESS_RESPONSE, added)), stale))
            == added
  {
    var p := Response(HEADER_SUCCESS_RESPONSE, added);
    assert Client.ReplyBuffer(Encode(p), stale) == Encode(p) + [];
    DecodeEncode(p, []);
  }

  /** A client's registration request, received whole by a handler whose
      mutex is free, registers the client under its direction with its
      screen size and socket exactly when that direction was free, and the
      reply, once sent, is read by the client as accepted exactly then. */
  lemma RequestRegisters(st: Server.ServerState, sock: Socket, direction: Int32, identifier: seq<Byte>,
                         width: Int32, height: Int32, stale: seq<Byte>)
    requires |identifier| == IDENTIFIER_SIZE && |stale| == RESPONSE_SIZE && !st.blocked
    ensures var request := Encode(AddClient(HEADER_ADD_CLIENT, identifier, width, height, direction));
            var s := Server.ServeStep(st, sock, Received(request), true);
            var vacant := direction !in st.registry;
            var reply := Response(HEADER_SUCCESS_RESPONSE, vacant);
            (s.exit == Server.Running <==> vacant) && (s.exit == Server.Refused <==> !vacant)
            && (vacant ==> s.state.registry == st.registry[direction := Monitor(width, height, direction, sock)])
            && (Server.Accepts(sock, true, st.closed) ==> s.state.outbox == st.outbox + [Server.Sent(sock, reply)])
            && Client.RegistrationAccepted(Client.ReplyBuffer(Encode(reply), stale)) == vacant
  {
    var p := AddClient(HEADER_ADD_CLIENT, identifier, width, height, direction);
    RegistrationRequestArrives(direction, identifier, width, height);
    Server.ServeAddClient(st, sock, Encode(p), true);
    RegistrationReplyRoundTrip(direction !in st.registry, stale);
  }

  /** A client's position echo, received whole by a handler whose mutex is
      free, returns input to the host exactly when the echo test passes for
      the current owner, and otherwise leaves the owner. */
  lemma EchoReturnsInput(st: Server.ServerState, sock: Socket, x: Int32, y: Int32, replyOk: bool)
    requires !st.blocked
    ensures var s := Server.ServeStep(st, sock, Received(Encode(MouseMoveResponse(HEADER_MOUSE_MOVE_RESPONSE, x, y))), replyOk);
            var back := Server.EchoReturnsControl(st.owner, x, y, Server.Entry(st.registry, st.owner));
            s.exit == Server.Running
            && s.state.owner == (if back then SCREEN_END else st.owner)
            && s.state.hookScreen == (if back then SCREEN_END else st.hookScreen)
  {
    var p := MouseMoveResponse(HEADER_MOUSE_MOVE_RESPONSE, x, y);
    EchoArrives(x, y);
    Server.ServeEcho(st, sock, Encode(p), replyOk);
  }

  /** A move the server sends for one axis moves the client's cursor by
      the value along that axis only, and the client echoes the new
      position once. */
  lemma MoveArrives(s: Client.Session, axis: int, value: Int32, stale: seq<Byte>, keyCode: Int32 -> int)
    requires axis == X_AXIS || axis == Y_AXIS
    requires |stale| == Client.CLIENT_BUFFER_SIZE
    ensures var data := Encode(Server.MouseMovePacket(axis, value).value);
            var t := Client.Step(s, Received(data), stale, keyCode);
            t.cursorX == (if axis == X_AXIS then Wrap32(s.cursorX + value) else s.cursorX)
            && t.cursorY == (if axis == Y_AXIS then Wrap32(s.cursorY + value) else s.cursorY)
            && t.sent == s.sent + [MouseMoveResponse(HEADER_MOUSE_MOVE_RESPONSE, t.cursorX, t.cursorY)]
            && t.injected == s.injected && t.listening == s.listening
    ensures var data := Encode(Server.MouseMovePacket(axis, value).value);
            HeaderOf(Client.ListenerBuffer(data, stale)) == HEADER_MOUSE_MOVE
            && DecodeMouseMove(Client.ListenerBuffer(data, stale)) == Server.MouseMovePacket(axis, value).value
  {
    var p := Server.MouseMovePacket(axis, value).value;
    var data := Encode(p);
    var rest := stale[|data|..];
    assert Client.ListenerBuffer(data, stale) == data + rest;
    HeaderOfEncode(p, rest);
    DecodeEncode(p, rest);
  }

  /** The X move and then the Y move of one raw mouse event, received by a
      listening client, move its cursor by the whole delta and produce two
      echoes, the last at the final position, whatever the two fresh
      buffers held. */
  lemma SplitMoveRecombines(s: Client.Session, dx: Int32, dy: Int32, sx: seq<Byte>, sy: seq<Byte>,
                            keyCode: Int32 -> int)
    requires |sx| == Client.CLIENT_BUFFER_SIZE && |sy| == Client.CLIENT_BUFFER_SIZE && s.listening
    ensures var incoming := [Received(Encode(Server.MouseMovePacket(X_AXIS, dx).value)),
                             Received(Encode(Server.MouseMovePacket(Y_AXIS, dy).value))];
            var t := Client.Run(s, incoming, [sx, sy], keyCode);
            var x, y := Wrap32(s.cursorX + dx), Wrap32(s.cursorY + dy);
            t.cursorX == x && t.cursorY == y && t.listening && t.injected == s.injected
            && t.sent == s.sent + [MouseMoveResponse(HEADER_MOUSE_MOVE_RESPONSE, x, s.cursorY),
                                   MouseMoveResponse(HEADER_MOUSE_MOVE_RESPONSE, x, y)]
  {
    var first := Received(Encode(Server.MouseMovePacket(X_AXIS, dx).value));
    var second := Received(Encode(Server.MouseMovePacket(Y_AXIS, dy).value));
    MoveArrives(s, X_AXIS, dx, sx, keyCode);
    var s1 := Client.Step(s, first, sx, keyCode);
    MoveArrives(s1, Y_AXIS, dy, sy, keyCode);
    var s2 := Client.Step(s1, second, sy, keyCode);
    var x, y := Wrap32(s.cursorX + dx), Wrap32(s.cursorY + dy);
    assert s1.cursorX == x && s1.cursorY == s.cursorY;
    assert s2.cursorX == x && s2.cursorY == y;
    TwoEchoes(s, s1, s2);
    Client.RunTwo(s, first, second, sx, sy, keyCode);
  }

  /** Two passes that each send one echo send both, in order. */
  lemma TwoEchoes(s: Client.Session, s1: Client.Session, s2: Client.Session)
    requires s1.sent == s.sent + [MouseMoveResponse(HEADER_MOUSE_MOVE_RESPONSE, s1.cursorX, s1.cursorY)]
    requires s2.sent == s1.sent + [MouseMoveResponse(HEADER_MOUSE_MOVE_RESPONSE, s2.cursorX, s2.cursorY)]
    ensures s2.sent == s.sent + [MouseMoveResponse(HEADER_MOUSE_MOVE_RESPONSE, s1.cursorX, s1.cursorY),
                                 MouseMoveResponse(HEADER_MOUSE_MOVE_RESPONSE, s2.cursorX, s2.cursorY)]
  {
  }

  /** The client's echo reaches the server's buffer as a
      MOUSE_MOVE_RESPONSE header and the same position. */
  lemma EchoArrives(x: Int32, y: Int32)
    ensures var p := MouseMoveResponse(HEADER_MOUSE_MOVE_RESPONSE, x, y);
            var buf := Server.ServerBuffer(Encode(p));
            HeaderOf(buf) == HEADER_MOUSE_MOVE_RESPONSE && DecodeMouseMoveResponse(buf) == p
  {
    var p := MouseMoveResponse(HEADER_MOUSE_MOVE_RESPONSE, x, y);
    var zeros := seq(Server.RECV_BUFFER_SIZE - MOUSE_MOVE_RESPONSE_SIZE, _ => 0);
    assert Server.ServerBuffer(Encode(p)) == Encode(p) + zeros;
    HeaderOfEncode(p, zeros);
    DecodeEncode(p, zeros);
  }

  /** A key the server sends reaches the client as that same number: a
      click for the two click keys, the platform code when it is not
      negative, nothing otherwise; the cursor does not move. */
  lemma KeyArrives(s: Client.Session, keyID: Int32, stale: seq<Byte>, keyCode: Int32 -> int)
    requires |stale| == Client.CLIENT_BUFFER_SIZE
    ensures var t := Client.Step(s, Received(Encode(Server.KeyPressPacket(keyID))), stale, keyCode);
            t.sent == s.sent && t.cursorX == s.cursorX && t.cursorY == s.cursorY
            && t.injected == s.injected + if Client.IsClick(keyID) then [Client.Click(keyID)]
                                          else if keyCode(keyID) >= 0 then [Client.KeyPress(keyCode(keyID))] else []
  {
    var p := Server.KeyPressPacket(keyID);
    var data := Encode(p);
    var rest := stale[|data|..];
    assert Client.ListenerBuffer(data, stale) == data + rest;
    HeaderOfEncode(p, rest);
    DecodeEncode(p, rest);
  }

  /** The keyboard hook sends the Windows virtual-key code itself as the
      key, and the client reads that number as a logical key. For every
      letter and digit the hook forwards, that is not the key the Windows
      table gives for the code: 'A' (65) arrives as KEY_NUMPAD0. */
  lemma VirtualKeyReadAsKey(vk: Int32)
    requires 0x41 <= vk <= 0x5A || 0x30 <= vk <= 0x39
    ensures vk in HOOK_KEY_CODES && WindowsKeyMap(vk).Some?
    ensures Server.KeyPressPacket(vk).key != WindowsKeyMap(vk).value
    ensures Server.KeyPressPacket(0x41).key == KEY_NUMPAD0 && WindowsKeyMap(0x41) == Some(KEY_A)
    ensures Server.KeyPressPacket(0x53).key == KEY_LCLICK && Client.IsClick(0x53)
    ensures Server.KeyPressPacket(0x54).key == KEY_RCLICK && Client.IsClick(0x54)
  {
    HookKeyCodesAre(vk);
    WindowsLetters(vk);
    WindowsDigits(vk);
    WindowsLetters(0x41);
  }

  /** 'S' and 'T' pressed on the host are forwarded by the hook and
      replayed by the client as a left and a right mouse click. */
  lemma LettersSAndTClick(s: Client.Session, stale: seq<Byte>, keyCode: Int32 -> int)
    requires |stale| == Client.CLIENT_BUFFER_SIZE
    ensures 0x53 in HOOK_KEY_CODES && 0x54 in HOOK_KEY_CODES
    ensures Client.Step(s, Received(Encode(Server.KeyPressPacket(0x53))), stale, keyCode).injected
              == s.injected + [Client.Click(KEY_LCLICK)]
    ensures Client.Step(s, Received(Encode(Server.KeyPressPacket(0x54))), stale, keyCode).injected
              == s.injected + [Client.Click(KEY_RCLICK)]
  {
    HookKeyCodesAre(0x53);
    HookKeyCodesAre(0x54);
    KeyArrives(s, 0x53, stale, keyCode);
    KeyArrives(s, 0x54, stale, keyCode);
  }
}
