/*
 * The server (server/server.h, server/server.cpp): the registry of peer
 * screens, the owner of input, and the operations the connection handlers
 * and the input hooks run against them.
 *
 * Each operation is one atomic step. A send is recorded in `outbox` when
 * the network accepts it; `sendOk` stands for the network's answer, and a
 * closed or invalid socket never accepts data. `blocked` records that some
 * thread holds mapMutex for ever: sendPacketToClient calls
 * setCurrentScreen while it holds the (non-recursive) mutex, and the
 * thread that does so never returns. Every later step that needs the
 * mutex hangs too; such a step reports `hung` and changes nothing.
 */
module Server {

  import opened Defines
  import opened Packet
  import opened InputObserver

  /** A packet the network accepted, with the socket it went out on. */
  datatype Sent = Sent(socket: Socket, packet: Packet)

  /** How a connection handler (handleClient) ends. */
  datatype Exit = Running | Refused | Disconnected | Hung

  const RECV_BUFFER_SIZE: nat := 1024

  /** Whether send() on `sock` succeeds, given the network's answer. */
  predicate Accepts(sock: Socket, sendOk: bool, closed: set<Socket>) {
    sendOk && sock != InvalidSocket && sock !in closed
  }

  /** The value `clientIDMap[d]` yields: the entry for d, or a default one. */
  function Entry(registry: map<int, Monitor>, d: int): Monitor {
    if d in registry then registry[d] else DefaultMonitor()
  }

  /** The registry after evaluating `clientIDMap[d]`: std::map::operator[]
      inserts a default entry when d is absent. */
  function Touch(registry: map<int, Monitor>, d: int): (r: map<int, Monitor>)
    ensures r.Keys == registry.Keys + {d}
    ensures r[d] == Entry(registry, d)
    ensures forall k :: k in registry ==> r[k] == registry[k]
  {
    if d in registry then registry else registry[d := DefaultMonitor()]
  }

  /** The position-echo test: whether the peer's cursor position (x, y),
      echoed back while `owner` has input, lies on the edge that hands input
      back to the host. `m` is the owner's registry entry; `width - 1` and
      `height - 1` are 32-bit subtractions. Only a peer owner can hand
      input back. */
  function EchoReturnsControl(owner: int, x: int, y: int, m: Monitor): (r: bool)
    ensures r ==> IsDirection(owner)
  {
    if owner == SCREEN_RIGHT then x == 0
    else if owner == SCREEN_LEFT then x >= Wrap32(m.width - 1)
    else if owner == SCREEN_BOTTOM then y == 0
    else if owner == SCREEN_TOP then y >= Wrap32(m.height - 1)
    else false
  }

  function Opposite(d: int): int
    requires IsDirection(d)
  {
    if d == SCREEN_RIGHT then SCREEN_LEFT
    else if d == SCREEN_LEFT then SCREEN_RIGHT
    else if d == SCREEN_TOP then SCREEN_BOTTOM
    else SCREEN_TOP
  }

  /** Control returns exactly when the peer's cursor, on the peer's own
      screen, reaches the edge facing the host: a peer to the right hands
      back at its left edge, and so on. */
  lemma EchoIsOppositeEdge(d: int, x: int, y: int, m: Monitor)
    requires IsDirection(d) && m.width >= 2 && m.height >= 2
    requires 0 <= x < m.width && 0 <= y < m.height
    ensures EchoReturnsControl(d, x, y, m) <==>
      (if d == SCREEN_RIGHT || d == SCREEN_LEFT then HidXEdge(x, m.width) else HidYEdge(y, m.height))
        == Some(Opposite(d))
  {
  }

  /** With no entry for a LEFT or TOP owner, the echo test runs against the
      default entry (width and height 0) and passes for any coordinate of
      at least -1. */
  lemma EchoAgainstMissingEntry(registry: map<int, Monitor>, x: int, y: int)
    requires SCREEN_LEFT !in registry && SCREEN_TOP !in registry
    ensures EchoReturnsControl(SCREEN_LEFT, x, y, Entry(registry, SCREEN_LEFT)) <==> x >= -1
    ensures EchoReturnsControl(SCREEN_TOP, x, y, Entry(registry, SCREEN_TOP)) <==> y >= -1
  {
  }

  /** A LEFT peer that registered the width INT32_MIN gets the threshold
      `width - 1` == INT32_MAX after wrap-around: only an echoed x of
      INT32_MAX hands input back. */
  lemma EchoThresholdWraps(x: Int32, y: Int32, height: Int32, sock: Socket)
    ensures EchoReturnsControl(SCREEN_LEFT, x, y, Monitor(INT32_MIN, height, SCREEN_LEFT, sock)) <==> x == INT32_MAX
  {
  }

  /** The packet sendMouseMovePacket builds: the value goes in the field of
      the given axis and the other field keeps its default 0; an invalid
      axis builds nothing. */
  function MouseMovePacket(axis: int, value: Int32): (r: Option<Packet>)
    ensures r.Some? <==> axis == X_AXIS || axis == Y_AXIS
    ensures r.Some? ==> r.value.MouseMove? && r.value.header == HEADER_MOUSE_MOVE
    ensures r.Some? ==> r.value.xDelta + r.value.yDelta == value
    ensures r.Some? && axis == X_AXIS ==> r.value.yDelta == 0
    ensures r.Some? && axis == Y_AXIS ==> r.value.xDelta == 0
  {
    var d := DefaultMouseMove();
    if axis == X_AXIS then Some(MouseMove(HEADER_MOUSE_MOVE, value, d.yDelta))
    else if axis == Y_AXIS then Some(MouseMove(HEADER_MOUSE_MOVE, d.xDelta, value))
    else None
  }

  /** The packet sendKeyPressPacket builds: `{ HEADER_KEYBOARD_INPUT, keyID }`
      puts the code as it is in `key` and leaves `os` at 0. */
  function KeyPressPacket(keyID: Int32): (r: Packet)
    ensures r.KeyboardInput? && r.header == HEADER_KEYBOARD_INPUT
    ensures r.key == keyID && r.os == 0
  {
    KeyboardInput(HEADER_KEYBOARD_INPUT, keyID, 0)
  }

  /** The part of the server's state a send can change. */
  datatype NetState = NetState(registry: map<int, Monitor>, outbox: seq<Sent>, blocked: bool)

  /** sendPacketToClient(direction, p): a registered direction gets the
      packet, and is evicted when the send fails; an unregistered direction
      deadlocks the sender; once deadlocked nothing changes. */
  function SendStep(st: NetState, direction: int, p: Packet, sendOk: bool, closed: set<Socket>): (r: NetState)
    ensures r.blocked <==> st.blocked || direction !in st.registry
    ensures direction in r.registry <==>
              direction in st.registry && (st.blocked || Accepts(st.registry[direction].clientSocket, sendOk, closed))
    ensures r.outbox != st.outbox ==>
              direction in st.registry && r.registry == st.registry
              && r.outbox == st.outbox + [Sent(st.registry[direction].clientSocket, p)]
  {
    if st.blocked then st
    else if direction !in st.registry then st.(blocked := true)
    else
      var sock := st.registry[direction].clientSocket;
      if Accepts(sock, sendOk, closed) then st.(outbox := st.outbox + [Sent(sock, p)])
      else st.(registry := st.registry - {direction})
  }

  /** A send never adds a registry entry, never changes one it keeps, only
      appends to the outbox, and can only remove the target's entry. */
  lemma SendStepFrame(st: NetState, direction: int, p: Packet, sendOk: bool, closed: set<Socket>)
    ensures var r := SendStep(st, direction, p, sendOk, closed);
      r.registry.Keys <= st.registry.Keys &&
      (forall d :: d in r.registry ==> r.registry[d] == st.registry[d]) &&
      (forall d :: d in st.registry && d != direction ==> d in r.registry) &&
      st.outbox <= r.outbox && |r.outbox| <= |st.outbox| + 1 &&
      (st.blocked ==> r.blocked)
  {
  }

  /** The mouse-move callback for one axis: forwarded to the owner only
      while a peer owns input. */
  function ForwardAxis(st: NetState, owner: int, axis: int, value: Int32, sendOk: bool, closed: set<Socket>): (r: NetState)
    requires axis == X_AXIS || axis == Y_AXIS
    ensures owner >= SCREEN_END ==> r == st
    ensures r.outbox != st.outbox ==>
              owner < SCREEN_END && owner in st.registry && r.registry == st.registry
              && r.outbox == st.outbox + [Sent(st.registry[owner].clientSocket, MouseMovePacket(axis, value).value)]
  {
    if owner < SCREEN_END then SendStep(st, owner, MouseMovePacket(axis, value).value, sendOk, closed) else st
  }

  /** The raw-input hook's two callbacks: the X move, then the Y move. The
      owner receives nothing, the X move alone, or the X move and then the
      Y move, on its own socket; never the Y move without the X move. */
  function ForwardMove(st: NetState, owner: int, dx: Int32, dy: Int32, okX: bool, okY: bool, closed: set<Socket>): (r: NetState)
    ensures var sock := Entry(st.registry, owner).clientSocket;
            var mx, my := Sent(sock, MouseMove(HEADER_MOUSE_MOVE, dx, 0)), Sent(sock, MouseMove(HEADER_MOUSE_MOVE, 0, dy));
            r.outbox == st.outbox || r.outbox == st.outbox + [mx] || r.outbox == st.outbox + [mx, my]
  {
    ForwardAxis(ForwardAxis(st, owner, X_AXIS, dx, okX, closed), owner, Y_AXIS, dy, okY, closed)
  }

  /** A live owner receives both moves, X first, on its own socket. */
  lemma ForwardToLiveOwner(st: NetState, owner: int, dx: Int32, dy: Int32, closed: set<Socket>)
    requires !st.blocked && owner < SCREEN_END && owner in st.registry
    requires st.registry[owner].clientSocket != InvalidSocket && st.registry[owner].clientSocket !in closed
    ensures var sock := st.registry[owner].clientSocket;
      ForwardMove(st, owner, dx, dy, true, true, closed)
        == st.(outbox := st.outbox + [Sent(sock, MouseMove(HEADER_MOUSE_MOVE, dx, 0)), Sent(sock, MouseMove(HEADER_MOUSE_MOVE, 0, dy))])
  {
  }

  /** An owner whose socket is closed is evicted by the X move, and the Y
      move then finds no entry and deadlocks: nothing is delivered and the
      owner is not reset. */
  lemma ForwardToClosedOwner(st: NetState, owner: int, dx: Int32, dy: Int32, okX: bool, okY: bool, closed: set<Socket>)
    requires !st.blocked && owner < SCREEN_END && owner in st.registry
    requires st.registry[owner].clientSocket in closed
    ensures ForwardMove(st, owner, dx, dy, okX, okY, closed)
              == NetState(st.registry - {owner}, st.outbox, true)
  {
  }

  /** An owner with no entry deadlocks the first move. */
  lemma ForwardToMissingOwner(st: NetState, owner: int, dx: Int32, dy: Int32, okX: bool, okY: bool, closed: set<Socket>)
    requires owner < SCREEN_END && owner !in st.registry
    ensures ForwardMove(st, owner, dx, dy, okX, okY, closed) == st.(blocked := true)
  {
  }

  /** While the host owns input nothing is forwarded. */
  lemma ForwardWhileHostOwns(st: NetState, dx: Int32, dy: Int32, okX: bool, okY: bool, closed: set<Socket>)
    ensures ForwardMove(st, SCREEN_END, dx, dy, okX, okY, closed) == st
  {
  }

  /** The server's receive buffer after recv: zeroed, then overwritten with
      the received bytes. */
  function ServerBuffer(data: seq<Byte>): (buf: seq<Byte>)
    requires |data| <= RECV_BUFFER_SIZE
    ensures |buf| == RECV_BUFFER_SIZE && buf[..|data|] == data
    ensures forall i | |data| <= i < RECV_BUFFER_SIZE :: buf[i] == 0
  {
    data + seq(RECV_BUFFER_SIZE - |data|, _ => 0)
  }

  /** recv into the 1024-byte buffer: a positive count is at most 1024. */
  predicate ValidRecv(r: RecvResult) {
    r.Received? ==> 0 < |r.data| <= RECV_BUFFER_SIZE
  }

  /** Every entry other than key -1 is still present and unchanged. */
  predicate KeepsEntries(before: map<int, Monitor>, after: map<int, Monitor>) {
    forall d :: d in before && d != -1 ==> d in after && after[d] == before[d]
  }

  /** The outbox grew only by registration replies on `sock`. */
  predicate OnlyReplies(before: seq<Sent>, after: seq<Sent>, sock: Socket) {
    before <= after && forall i | |before| <= i < |after| :: after[i].socket == sock && after[i].packet.Response?
  }

  const HID_PAGE_GENERIC_DESKTOP: int := 0x01
  const HID_USAGE_GD_X: int := 0x30
  const HID_USAGE_GD_Y: int := 0x31

  /** The edge a HID event on one axis tests: left/right for X, top/bottom
      for Y. */
  function HidEdge(axis: int, x: int, y: int, w: int, h: int): (r: Option<int>)
    requires axis == X_AXIS || axis == Y_AXIS
    ensures r.Some? && axis == X_AXIS ==> r.value == SCREEN_LEFT || r.value == SCREEN_RIGHT
    ensures r.Some? && axis == Y_AXIS ==> r.value == SCREEN_TOP || r.value == SCREEN_BOTTOM
  {
    if axis == X_AXIS then HidXEdge(x, w) else HidYEdge(y, h)
  }

  /** The owner after a border hit on `edge`, as setCurrentScreen decides. */
  function OwnerAfterHit(registry: map<int, Monitor>, edge: int): (r: int)
    ensures r == edge <==> edge in registry || edge == SCREEN_END
    ensures r != edge ==> r == SCREEN_END
  {
    if edge in registry then edge else SCREEN_END
  }

  /** The part of the server's state a connection handler reads and writes:
      the registry, the owner, the hook's copy of the owner, what went out,
      which sockets are closed, and whether the mutex is lost. */
  datatype ServerState = ServerState(registry: map<int, Monitor>, owner: int, hookScreen: int,
                                     outbox: seq<Sent>, closed: set<Socket>, blocked: bool)

  /** One pass of the handler's loop: the new state and how the handler
      goes on. */
  datatype Served = Served(state: ServerState, exit: Exit)

  /** A handler run: the state it leaves, how it ends, and how many recv
      outcomes it used. */
  datatype Handled = Handled(state: ServerState, exit: Exit, consumed: nat)

  /** The ADD_CLIENT branch on a state: insert-if-absent, a reply whose
      status is the outcome, the socket closed on a refusal. */
  function Admit(st: ServerState, sock: Socket, p: Packet, replyOk: bool): Served
    requires p.AddClient?
  {
    if st.blocked then Served(st, Hung)
    else
      var added := p.direction !in st.registry;
      var reply := if Accepts(sock, replyOk, st.closed) then [Sent(sock, Response(HEADER_SUCCESS_RESPONSE, added))] else [];
      if added then
        Served(st.(registry := st.registry[p.direction := Monitor(p.screenWidth, p.screenHeight, p.direction, sock)],
                   outbox := st.outbox + reply), Running)
      else
        Served(st.(outbox := st.outbox + reply, closed := st.closed + {sock}), Refused)
  }

  /** The MOUSE_MOVE_RESPONSE branch on a state: the unlocked lookup for a
      LEFT or TOP owner, then the echo test; a successful test returns
      input to the host unless the mutex is lost. */
  function Echo(st: ServerState, x: Int32, y: Int32): Served {
    var registry := if st.owner == SCREEN_LEFT || st.owner == SCREEN_TOP then Touch(st.registry, st.owner) else st.registry;
    var back := EchoReturnsControl(st.owner, x, y, Entry(st.registry, st.owner));
    if back && st.blocked then Served(st.(registry := registry), Hung)
    else if back then Served(st.(registry := registry, owner := SCREEN_END, hookScreen := SCREEN_END), Running)
    else Served(st.(registry := registry), Running)
  }

  /** The cleanup after the loop, on a state. */
  function Cleanup(st: ServerState, sock: Socket, clientDirection: int): Served {
    if st.blocked then
      Served(if clientDirection == -1 then st.(closed := st.closed + {sock}) else st, Hung)
    else
      Served(st.(registry := st.registry - {clientDirection}, closed := st.closed + {sock}), Disconnected)
  }

  /** One pass of handleClient's loop on a state: dispatch on the header of
      the received bytes, or clean up with the never-assigned direction -1
      when recv reports a close or an error. */
  function ServeStep(st: ServerState, sock: Socket, r: RecvResult, replyOk: bool): Served
    requires ValidRecv(r)
  {
    if r.Received? then
      var buffer := ServerBuffer(r.data);
      var header := HeaderOf(buffer);
      if header == HEADER_ADD_CLIENT then Admit(st, sock, DecodeAddClient(buffer), replyOk)
      else if header == HEADER_MOUSE_MOVE_RESPONSE then
        var p := DecodeMouseMoveResponse(buffer);
        Echo(st, p.x, p.y)
      else Served(st, Running)
    else Cleanup(st, sock, -1)
  }

  predicate AllValidRecv(incoming: seq<RecvResult>) {
    forall i | 0 <= i < |incoming| :: ValidRecv(incoming[i])
  }

  /** handleClient on a state and a finite run of recv outcomes: passes run
      in order until one does not end `Running`; a run that is still
      `Running` has used every outcome. */
  function ServeRun(st: ServerState, sock: Socket, incoming: seq<RecvResult>, replyOk: seq<bool>): (h: Handled)
    requires |replyOk| == |incoming| && AllValidRecv(incoming)
    ensures h.consumed <= |incoming|
    ensures h.exit == Running ==> h.consumed == |incoming|
    ensures h.exit != Running ==> 0 < h.consumed
    decreases |incoming|
  {
    if |incoming| == 0 then Handled(st, Running, 0)
    else
      var n := |incoming| - 1;
      var before := ServeRun(st, sock, incoming[..n], replyOk[..n]);
      if before.exit != Running then before
      else
        var s := ServeStep(before.state, sock, incoming[n], replyOk[n]);
        Handled(s.state, s.exit, n + 1)
  }

  /** An ADD_CLIENT packet: its direction is registered to this socket
      exactly when it was free, the reply's status says which, a refused
      connection is closed, and the owner does not change. With the mutex
      lost the pass hangs and changes nothing. */
  lemma ServeAddClient(st: ServerState, sock: Socket, data: seq<Byte>, replyOk: bool)
    requires 0 < |data| <= RECV_BUFFER_SIZE && HeaderOf(ServerBuffer(data)) == HEADER_ADD_CLIENT
    ensures var p := DecodeAddClient(ServerBuffer(data));
            var s := ServeStep(st, sock, Received(data), replyOk);
            var vacant := p.direction !in st.registry;
            (st.blocked ==> s == Served(st, Hung))
            && (!st.blocked ==>
                  (s.exit == Running <==> vacant) && (s.exit == Refused <==> !vacant)
                  && (vacant ==> s.state.registry == st.registry[p.direction := Monitor(p.screenWidth, p.screenHeight, p.direction, sock)])
                  && (!vacant ==> s.state.registry == st.registry)
                  && s.state.closed == (if vacant then st.closed else st.closed + {sock})
                  && s.state.outbox == st.outbox + (if Accepts(sock, replyOk, st.closed)
                                                    then [Sent(sock, Response(HEADER_SUCCESS_RESPONSE, vacant))] else [])
                  && s.state.owner == st.owner && s.state.hookScreen == st.hookScreen)
  {
  }

  /** A position echo, whichever connection sends it: it is tested against
      the current owner; a passing test hands input back to the host (or
      hangs, with the mutex lost), a failing one leaves the owner. Nothing
      is sent or closed, and a LEFT or TOP owner gains an entry. */
  lemma ServeEcho(st: ServerState, sock: Socket, data: seq<Byte>, replyOk: bool)
    requires 0 < |data| <= RECV_BUFFER_SIZE && HeaderOf(ServerBuffer(data)) == HEADER_MOUSE_MOVE_RESPONSE
    ensures var p := DecodeMouseMoveResponse(ServerBuffer(data));
            var s := ServeStep(st, sock, Received(data), replyOk);
            var back := EchoReturnsControl(st.owner, p.x, p.y, Entry(st.registry, st.owner));
            s.exit == (if back && st.blocked then Hung else Running)
            && (back && !st.blocked ==> s.state.owner == SCREEN_END && s.state.hookScreen == SCREEN_END)
            && (!back || st.blocked ==> s.state.owner == st.owner && s.state.hookScreen == st.hookScreen)
            && s.state.registry.Keys == st.registry.Keys + (if st.owner == SCREEN_LEFT || st.owner == SCREEN_TOP then {st.owner} else {})
            && s.state.outbox == st.outbox && s.state.closed == st.closed
  {
  }

  /** Any pass: only key -1 can lose its entry, the connection sends only
      replies on its own socket, ownership stays or returns to the host,
      nothing is reopened, and the pass ends `Disconnected` exactly on a
      close or error with the mutex free. */
  lemma ServeStepFrame(st: ServerState, sock: Socket, r: RecvResult, replyOk: bool)
    requires ValidRecv(r)
    ensures var s := ServeStep(st, sock, r, replyOk);
            KeepsEntries(st.registry, s.state.registry) && OnlyReplies(st.outbox, s.state.outbox, sock)
            && (s.state.owner == st.owner || s.state.owner == SCREEN_END)
            && s.state.blocked == st.blocked && st.closed <= s.state.closed
            && (s.exit == Disconnected <==> !r.Received? && !st.blocked)
            && (!r.Received? && st.blocked ==> s.exit == Hung)
            && (s.exit == Hung ==> st.blocked)
            && (s.exit == Disconnected ==> -1 !in s.state.registry && sock in s.state.closed)
            && (s.exit == Refused ==> sock in s.state.closed)
  {
    if r.Received? {
      var buffer := ServerBuffer(r.data);
      if HeaderOf(buffer) == HEADER_ADD_CLIENT {
        AdmitFrame(st, sock, DecodeAddClient(buffer), replyOk);
      } else if HeaderOf(buffer) == HEADER_MOUSE_MOVE_RESPONSE {
        var p := DecodeMouseMoveResponse(buffer);
        EchoFrame(st, p.x, p.y);
      }
    }
  }

  lemma AdmitFrame(st: ServerState, sock: Socket, p: Packet, replyOk: bool)
    requires p.AddClient?
    ensures var s := Admit(st, sock, p, replyOk);
            KeepsEntries(st.registry, s.state.registry) && OnlyReplies(st.outbox, s.state.outbox, sock)
            && s.state.owner == st.owner && s.state.blocked == st.blocked && st.closed <= s.state.closed
            && s.exit != Disconnected && (s.exit == Hung ==> st.blocked)
            && (s.exit == Refused ==> sock in s.state.closed)
  {
  }

  lemma EchoFrame(st: ServerState, x: Int32, y: Int32)
    ensures var s := Echo(st, x, y);
            KeepsEntries(st.registry, s.state.registry) && s.state.outbox == st.outbox
            && (s.state.owner == st.owner || s.state.owner == SCREEN_END)
            && s.state.blocked == st.blocked && s.state.closed == st.closed
            && (s.exit == Running || s.exit == Hung) && (s.exit == Hung ==> st.blocked)
  {
  }

  /** A whole handler run keeps what each pass keeps. */
  lemma {:induction false} ServeRunFrame(st: ServerState, sock: Socket, incoming: seq<RecvResult>, replyOk: seq<bool>)
    requires |replyOk| == |incoming| && AllValidRecv(incoming)
    ensures var h := ServeRun(st, sock, incoming, replyOk);
            KeepsEntries(st.registry, h.state.registry) && OnlyReplies(st.outbox, h.state.outbox, sock)
            && (h.state.owner == st.owner || h.state.owner == SCREEN_END)
            && h.state.blocked == st.blocked && st.closed <= h.state.closed
    decreases |incoming|
  {
    if |incoming| > 0 {
      var n := |incoming| - 1;
      assert AllValidRecv(incoming[..n]);
      ServeRunFrame(st, sock, incoming[..n], replyOk[..n]);
      var before := ServeRun(st, sock, incoming[..n], replyOk[..n]);
      if before.exit == Running {
        ServeStepFrame(before.state, sock, incoming[n], replyOk[n]);
      }
    }
  }

  /** Which outcomes a handler run received: a run still going received
      all of them; a run that stopped received every one before the last it
      read, and it ends `Disconnected` only on a close or error there. */
  lemma {:induction false} ServeRunReceived(st: ServerState, sock: Socket, incoming: seq<RecvResult>, replyOk: seq<bool>)
    requires |replyOk| == |incoming| && AllValidRecv(incoming)
    ensures var h := ServeRun(st, sock, incoming, replyOk);
            (h.exit == Running ==> forall i | 0 <= i < |incoming| :: incoming[i].Received?)
            && (h.exit != Running ==> forall i | 0 <= i < h.consumed - 1 :: incoming[i].Received?)
            && (h.exit == Disconnected ==> !incoming[h.consumed - 1].Received?)
            && (h.exit != Running && !incoming[h.consumed - 1].Received? ==> h.exit == Disconnected || h.exit == Hung)
    decreases |incoming|
  {
    if |incoming| > 0 {
      var n := |incoming| - 1;
      assert AllValidRecv(incoming[..n]);
      ServeRunReceived(st, sock, incoming[..n], replyOk[..n]);
      var before := ServeRun(st, sock, incoming[..n], replyOk[..n]);
      if before.exit == Running {
        ServeStepFrame(before.state, sock, incoming[n], replyOk[n]);
        forall i | 0 <= i < n ensures incoming[i].Received? {
          assert incoming[..n][i] == incoming[i];
        }
      } else {
        forall i | 0 <= i < before.consumed ensures incoming[..n][i] == incoming[i] { }
      }
    }
  }

  /** The state a stopped handler run leaves: the key -1 gone and the
      socket closed after a disconnect, the socket closed after a refusal,
      the mutex lost after a hang. */
  lemma {:induction false} ServeRunExits(st: ServerState, sock: Socket, incoming: seq<RecvResult>, replyOk: seq<bool>)
    requires |replyOk| == |incoming| && AllValidRecv(incoming)
    ensures var h := ServeRun(st, sock, incoming, replyOk);
            (h.exit == Disconnected ==> -1 !in h.state.registry && sock in h.state.closed)
            && (h.exit == Refused ==> sock in h.state.closed)
            && (h.exit == Hung ==> h.state.blocked)
    decreases |incoming|
  {
    if |incoming| > 0 {
      var n := |incoming| - 1;
      assert AllValidRecv(incoming[..n]);
      ServeRunExits(st, sock, incoming[..n], replyOk[..n]);
      var before := ServeRun(st, sock, incoming[..n], replyOk[..n]);
      if before.exit == Running {
        ServeStepFrame(before.state, sock, incoming[n], replyOk[n]);
      }
    }
  }

  /** What a handler run's result says, field by field, about the state
      it started from. */
  lemma HandledOutcome(st: ServerState, sock: Socket, incoming: seq<RecvResult>, replyOk: seq<bool>, h: Handled)
    requires |replyOk| == |incoming| && AllValidRecv(incoming)
    requires h == ServeRun(st, sock, incoming, replyOk)
    ensures h.exit == Running ==> forall i | 0 <= i < |incoming| :: incoming[i].Received?
    ensures h.exit != Running ==> forall i | 0 <= i < h.consumed - 1 :: incoming[i].Received?
    ensures h.exit != Running ==>
              (h.exit == Disconnected ==> !incoming[h.consumed - 1].Received?)
              && (!incoming[h.consumed - 1].Received? ==> h.exit == Disconnected || h.exit == Hung)
    ensures KeepsEntries(st.registry, h.state.registry)
    ensures OnlyReplies(st.outbox, h.state.outbox, sock)
    ensures h.exit == Disconnected ==> -1 !in h.state.registry && sock in h.state.closed
    ensures h.exit == Refused ==> sock in h.state.closed
    ensures h.exit == Hung ==> h.state.blocked
    ensures h.state.owner == st.owner || h.state.owner == SCREEN_END
  {
    ServeRunFrame(st, sock, incoming, replyOk);
    ServeRunReceived(st, sock, incoming, replyOk);
    ServeRunExits(st, sock, incoming, replyOk);
  }

  /** A run still going after k outcomes takes the next pass on the
      (k+1)-th. */
  lemma ServeRunExtends(st: ServerState, sock: Socket, incoming: seq<RecvResult>, replyOk: seq<bool>, k: nat)
    requires |replyOk| == |incoming| && AllValidRecv(incoming) && k < |incoming|
    requires AllValidRecv(incoming[..k]) && AllValidRecv(incoming[..k + 1])
    requires ServeRun(st, sock, incoming[..k], replyOk[..k]).exit == Running
    ensures var s := ServeStep(ServeRun(st, sock, incoming[..k], replyOk[..k]).state, sock, incoming[k], replyOk[k]);
            ServeRun(st, sock, incoming[..k + 1], replyOk[..k + 1]) == Handled(s.state, s.exit, k + 1)
  {
    assert incoming[..k + 1][..k] == incoming[..k] && replyOk[..k + 1][..k] == replyOk[..k];
  }

  /** Once a prefix of the outcomes ends the run, the outcomes after it are
      never read. */
  lemma {:induction false} ServeRunStops(st: ServerState, sock: Socket, incoming: seq<RecvResult>, replyOk: seq<bool>, k: nat)
    requires |replyOk| == |incoming| && AllValidRecv(incoming) && k <= |incoming|
    requires AllValidRecv(incoming[..k])
    requires ServeRun(st, sock, incoming[..k], replyOk[..k]).exit != Running
    ensures ServeRun(st, sock, incoming, replyOk) == ServeRun(st, sock, incoming[..k], replyOk[..k])
    decreases |incoming| - k
  {
    if k < |incoming| {
      var n := |incoming| - 1;
      assert incoming[..n][..k] == incoming[..k] && replyOk[..n][..k] == replyOk[..k];
      assert AllValidRecv(incoming[..n]);
      ServeRunStops(st, sock, incoming[..n], replyOk[..n], k);
    } else {
      assert incoming[..k] == incoming && replyOk[..k] == replyOk;
    }
  }

  class Server {
    var clientIDMap: map<int, Monitor>
    var currentScreen: int
    const observer: Observer
    var outbox: seq<Sent>
    var closed: set<Socket>
    var blocked: bool

    function Net(): NetState
      reads this
    {
      NetState(clientIDMap, outbox, blocked)
    }

    function State(): ServerState
      reads this, observer
    {
      ServerState(clientIDMap, currentScreen, observer.currScreen, outbox, closed, blocked)
    }

    /** A fresh server: no peers, the host owns input. */
    constructor (width: Int32, height: Int32, x: Int32, y: Int32)
      ensures clientIDMap == map[] && currentScreen == SCREEN_END && outbox == [] && closed == {} && !blocked
      ensures fresh(observer) && fresh(observer.mouseData) && observer.currScreen == SCREEN_END
      ensures observer.screenWidth == width && observer.screenHeight == height
      ensures observer.cursorX == x && observer.cursorY == y
    {
      clientIDMap := map[];
      currentScreen := SCREEN_END;
      outbox := [];
      closed := {};
      blocked := false;
      observer := new Observer(width, height, x, y);
    }

    /** send() on one socket. */
    method Transmit(sock: Socket, p: Packet, sendOk: bool) returns (ok: bool)
      modifies this`outbox
      ensures ok == Accepts(sock, sendOk, closed)
      ensures outbox == old(outbox) + (if ok then [Sent(sock, p)] else [])
    {
      ok := sendOk && sock != InvalidSocket && sock !in closed;
      if ok {
        outbox := outbox + [Sent(sock, p)];
      }
    }

    /** setCurrentScreen: ownership moves to `direction` when it is
        registered and back to the host otherwise; the observer's copy
        follows. The registry is not changed. */
    method SetCurrentScreen(direction: int) returns (hung: bool)
      modifies this`currentScreen, observer`currScreen
      ensures hung == blocked
      ensures !hung ==> currentScreen == observer.currScreen
                        == if direction in clientIDMap then direction else SCREEN_END
      ensures hung ==> currentScreen == old(currentScreen) && observer.currScreen == old(observer.currScreen)
    {
      if blocked {
        return true;
      }
      hung := false;
      if direction in clientIDMap {
        currentScreen := direction;
        observer.currScreen := direction;
      } else {
        currentScreen := SCREEN_END;
        observer.currScreen := SCREEN_END;
      }
    }

    /** removeClient. */
    method RemoveClient(direction: int) returns (hung: bool)
      modifies this`clientIDMap
      ensures hung == blocked
      ensures clientIDMap == if hung then old(clientIDMap) else old(clientIDMap) - {direction}
    {
      if blocked {
        return true;
      }
      hung := false;
      clientIDMap := clientIDMap - {direction};
    }

    method SendPacketToClient(direction: int, p: Packet, sendOk: bool) returns (hung: bool)
      modifies this`clientIDMap, this`outbox, this`blocked
      ensures Net() == SendStep(old(Net()), direction, p, sendOk, closed)
      ensures hung == blocked
    {
      if blocked {
        return true;
      }
      if direction !in clientIDMap {
        // The not-found branch calls setCurrentScreen, which locks the
        // mutex this thread already holds.
        blocked := true;
        return true;
      }
      hung := false;
      var sock := clientIDMap[direction].clientSocket;
      var ok := Transmit(sock, p, sendOk);
      if !ok {
        clientIDMap := clientIDMap - {direction};
      }
    }

    /** sendMouseMovePacket: nothing for an invalid axis, otherwise the move
        goes to the owner while a peer owns input. */
    method SendMouseMovePacket(axis: int, value: Int32, sendOk: bool) returns (hung: bool)
      modifies this`clientIDMap, this`outbox, this`blocked
      ensures axis != X_AXIS && axis != Y_AXIS ==> Net() == old(Net())
      ensures axis == X_AXIS || axis == Y_AXIS ==>
                Net() == ForwardAxis(old(Net()), currentScreen, axis, value, sendOk, closed)
      ensures hung == ((axis == X_AXIS || axis == Y_AXIS) && currentScreen < SCREEN_END && blocked)
    {
      var packet := MouseMovePacket(axis, value);
      if packet.None? {
        return false;
      }
      hung := false;
      if currentScreen < SCREEN_END {
        hung := SendPacketToClient(currentScreen, packet.value, sendOk);
      }
    }

    /** sendKeyPressPacket: the key goes to the owner while a peer owns
        input. */
    method SendKeyPressPacket(keyID: Int32, sendOk: bool) returns (hung: bool)
      modifies this`clientIDMap, this`outbox, this`blocked
      ensures Net() == if currentScreen < SCREEN_END
                       then SendStep(old(Net()), currentScreen, KeyPressPacket(keyID), sendOk, closed)
                       else old(Net())
      ensures hung == (currentScreen < SCREEN_END && blocked)
    {
      var packet := KeyPressPacket(keyID);
      hung := false;
      if currentScreen < SCREEN_END {
        hung := SendPacketToClient(currentScreen, packet, sendOk);
      }
    }
  
    /** The ADD_CLIENT branch of handleClient: insert-if-absent under the
        lock, a Response whose status says whether the insert happened, and
        the connection closed when it did not. */
    method Register(sock: Socket, packet: Packet, replyOk: bool) returns (added: bool, hung: bool)
      requires packet.AddClient?
      modifies this`clientIDMap, this`outbox, this`closed
      ensures hung == blocked && (hung ==> !added)
      ensures hung ==> clientIDMap == old(clientIDMap) && outbox == old(outbox) && closed == old(closed)
      ensures !hung ==> added == (packet.direction !in old(clientIDMap))
      ensures !hung && added ==>
                clientIDMap == old(clientIDMap)[packet.direction := Monitor(packet.screenWidth, packet.screenHeight, packet.direction, sock)]
                && closed == old(closed)
      ensures !hung && !added ==> clientIDMap == old(clientIDMap) && closed == old(closed) + {sock}
      ensures !hung ==> outbox == old(outbox) + if Accepts(sock, replyOk, old(closed))
                                                then [Sent(sock, Response(HEADER_SUCCESS_RESPONSE, added))] else []
    {
      if blocked {
        return false, true;
      }
      hung := false;
      added := packet.direction !in clientIDMap;
      if added {
        clientIDMap := clientIDMap[packet.direction := Monitor(packet.screenWidth, packet.screenHeight, packet.direction, sock)];
      }
      var replied := Transmit(sock, Response(HEADER_SUCCESS_RESPONSE, added), replyOk);
      if !added {
        closed := closed + {sock};
      }
    }

    /** The MOUSE_MOVE_RESPONSE branch of handleClient: the echoed position
        is tested against the current owner, whichever connection sent it;
        for a LEFT or TOP owner the unlocked `clientIDMap[currentScreen]`
        inserts a default entry when there is none. */
    method HandleEcho(x: Int32, y: Int32) returns (hung: bool)
      modifies this`clientIDMap, this`currentScreen, observer`currScreen
      ensures clientIDMap == if old(currentScreen) == SCREEN_LEFT || old(currentScreen) == SCREEN_TOP
                             then Touch(old(clientIDMap), old(currentScreen)) else old(clientIDMap)
      ensures var back := EchoReturnsControl(old(currentScreen), x, y, Entry(old(clientIDMap), old(currentScreen)));
              hung == (back && blocked)
              && (back && !hung ==> currentScreen == SCREEN_END && observer.currScreen == SCREEN_END)
              && (!back || hung ==> currentScreen == old(currentScreen) && observer.currScreen == old(observer.currScreen))
    {
      hung := false;
      var m := DefaultMonitor();
      if currentScreen == SCREEN_LEFT || currentScreen == SCREEN_TOP {
        clientIDMap := Touch(clientIDMap, currentScreen);
        m := clientIDMap[currentScreen];
      }
      if EchoReturnsControl(currentScreen, x, y, m) {
        hung := SetCurrentScreen(SCREEN_END);
      }
    }

    /** The end of handleClient: the erase under the lock only runs for a
        direction other than -1, the socket is closed, and removeClient
        erases the same key. */
    method DisconnectCleanup(sock: Socket, clientDirection: int) returns (hung: bool)
      modifies this`clientIDMap, this`closed
      ensures hung == blocked
      ensures !hung ==> clientIDMap == old(clientIDMap) - {clientDirection} && closed == old(closed) + {sock}
      ensures hung ==> clientIDMap == old(clientIDMap)
      ensures hung ==> closed == if clientDirection == -1 then old(closed) + {sock} else old(closed)
    {
      if clientDirection != -1 {
        if blocked {
          return true;
        }
        clientIDMap := clientIDMap - {clientDirection};
      }
      closed := closed + {sock};
      hung := RemoveClient(clientDirection);
    }

    /** One pass of handleClient's loop on one recv outcome; `clientDirection`
        is never assigned, so the cleanup always runs with -1. */
    method ServeOne(sock: Socket, r: RecvResult, replyOk: bool) returns (exit: Exit)
      requires ValidRecv(r)
      modifies this`clientIDMap, this`outbox, this`closed, this`currentScreen, observer`currScreen
      ensures Served(State(), exit) == ServeStep(old(State()), sock, r, replyOk)
      ensures KeepsEntries(old(clientIDMap), clientIDMap)
      ensures OnlyReplies(old(outbox), outbox, sock)
      ensures currentScreen == old(currentScreen) || currentScreen == SCREEN_END
      ensures r.Received? ==> exit != Disconnected
      ensures !r.Received? ==> exit == if old(blocked) then Hung else Disconnected
      ensures exit == Disconnected ==> -1 !in clientIDMap && sock in closed
      ensures exit == Refused ==> sock in closed
      ensures exit == Hung ==> blocked
      ensures r.Received? && HeaderOf(ServerBuffer(r.data)) !in {HEADER_ADD_CLIENT, HEADER_MOUSE_MOVE_RESPONSE} ==>
                exit == Running && clientIDMap == old(clientIDMap) && outbox == old(outbox)
                && closed == old(closed) && currentScreen == old(currentScreen)
    {
      var clientDirection := -1;
      if r.Received? {
        var buffer := ServerBuffer(r.data);
        var header := HeaderOf(buffer);
        if header == HEADER_ADD_CLIENT {
          var packet := DecodeAddClient(buffer);
          var added, hung := Register(sock, packet, replyOk);
          exit := if hung then Hung else if added then Running else Refused;
        } else if header == HEADER_MOUSE_MOVE_RESPONSE {
          var packet := DecodeMouseMoveResponse(buffer);
          var hung := HandleEcho(packet.x, packet.y);
          exit := if hung then Hung else Running;
        } else {
          exit := Running;
        }
      } else {
        var hung := DisconnectCleanup(sock, clientDirection);
        exit := if hung then Hung else Disconnected;
      }
    }

    /** handleClient on a finite run of recv outcomes, one reply flag per
        outcome: it stops at a close or error, a refused registration or a
        hang, and `Running` means the outcomes ran out first. Only key -1
        can lose its entry, and the connection only ever sends replies. */
    method HandleClient(sock: Socket, incoming: seq<RecvResult>, replyOk: seq<bool>) returns (consumed: nat, exit: Exit)
      requires |replyOk| == |incoming| && AllValidRecv(incoming)
      modifies this`clientIDMap, this`outbox, this`closed, this`currentScreen, observer`currScreen
      ensures Handled(State(), exit, consumed) == ServeRun(old(State()), sock, incoming, replyOk)
      ensures consumed <= |incoming|
      ensures exit == Running ==> consumed == |incoming| && forall i | 0 <= i < |incoming| :: incoming[i].Received?
      ensures exit != Running ==> 0 < consumed && forall i | 0 <= i < consumed - 1 :: incoming[i].Received?
      ensures exit != Running ==> (exit == Disconnected ==> !incoming[consumed - 1].Received?)
                                  && (!incoming[consumed - 1].Received? ==> exit == Disconnected || exit == Hung)
      ensures KeepsEntries(old(clientIDMap), clientIDMap)
      ensures OnlyReplies(old(outbox), outbox, sock)
      ensures exit == Disconnected ==> -1 !in clientIDMap && sock in closed
      ensures exit == Refused ==> sock in closed
      ensures exit == Hung ==> blocked
      ensures currentScreen == old(currentScreen) || currentScreen == SCREEN_END
    {
      ghost var start := State();
      consumed, exit := 0, Running;
      while consumed < |incoming|
        invariant consumed <= |incoming| && exit == Running
        invariant AllValidRecv(incoming[..consumed])
        invariant Handled(State(), exit, consumed) == ServeRun(start, sock, incoming[..consumed], replyOk[..consumed])
      {
        assert AllValidRecv(incoming[..consumed + 1]);
        ServeRunExtends(start, sock, incoming, replyOk, consumed);
        exit := ServeOne(sock, incoming[consumed], replyOk[consumed]);
        consumed := consumed + 1;
        if exit != Running {
          ServeRunStops(start, sock, incoming, replyOk, consumed);
          break;
        }
      }
      if exit == Running {
        assert incoming[..consumed] == incoming && replyOk[..consumed] == replyOk;
      }
      HandledOutcome(start, sock, incoming, replyOk, Handled(State(), exit, consumed));
    }
  
    /** The mouse branch of the raw-input window procedure, wired to this
        server's callbacks. The environment has already moved the OS cursor;
        the hook clamps the deltas, reads the cursor, reports at most one
        border hit and then overwrites its own `currScreen` with the edge,
        and, while that says a peer owns input, forwards X then Y and
        re-centres the cursor. A step that hangs ends the hook. */
    method RawMouseInput(lLastX: int, lLastY: int, okX: bool, okY: bool) returns (hung: bool)
      modifies this`clientIDMap, this`outbox, this`blocked, this`currentScreen, observer, observer.mouseData
      ensures observer.mouseData.xDelta == Clamp32(lLastX) && observer.mouseData.yDelta == Clamp32(lLastY)
      ensures observer.currX == old(observer.cursorX) && observer.currY == old(observer.cursorY)
      ensures var x, y := old(observer.cursorX), old(observer.cursorY);
              var edge := BorderEdge(x, y, observer.screenWidth, observer.screenHeight);
              var owner := if edge.Some? then OwnerAfterHit(old(clientIDMap), edge.value) else old(currentScreen);
              var hookScreen := if edge.Some? then edge.value else old(observer.currScreen);
              var net := if hookScreen < SCREEN_END
                         then ForwardMove(old(Net()), owner, Clamp32(lLastX), Clamp32(lLastY), okX, okY, closed)
                         else old(Net());
              if edge.Some? && old(blocked) then
                hung && Net() == old(Net()) && currentScreen == old(currentScreen)
                && observer.currScreen == old(observer.currScreen)
                && observer.cursorX == x && observer.cursorY == y
              else
                currentScreen == owner && observer.currScreen == hookScreen && Net() == net
                && hung == (hookScreen < SCREEN_END && owner < SCREEN_END && net.blocked)
                && (if hookScreen < SCREEN_END && !hung
                    then observer.cursorX == Half(observer.screenWidth) && observer.cursorY == Half(observer.screenHeight)
                    else observer.cursorX == x && observer.cursorY == y)
    {
      observer.mouseData.SetFromLong(lLastX, lLastY);
      observer.ReadCursor();
      var edge := BorderEdge(observer.currX, observer.currY, observer.screenWidth, observer.screenHeight);
      if edge.Some? {
        hung := SetCurrentScreen(edge.value);
        if hung {
          return;
        }
        observer.currScreen := edge.value;
      }
      hung := false;
      if observer.currScreen < SCREEN_END {
        hung := SendMouseMovePacket(X_AXIS, observer.mouseData.xDelta, okX);
        if hung {
          return;
        }
        hung := SendMouseMovePacket(Y_AXIS, observer.mouseData.yDelta, okY);
        if hung {
          return;
        }
        observer.SetMousePosition(Half(observer.screenWidth), Half(observer.screenHeight));
      }
    }

    /** The HID input callback: only generic-desktop events with a nonzero
        value on the X or Y usage do anything. An X event tests only the
        left and right edges, a Y event only the top and bottom ones; the
        value itself is forwarded on that axis. Unlike the raw-input hook,
        `currScreen` is left as the border callback set it. */
    method HidInput(usagePage: int, usage: int, intValue: Int32, sendOk: bool) returns (hung: bool)
      modifies this`clientIDMap, this`outbox, this`blocked, this`currentScreen, observer
      ensures usagePage != HID_PAGE_GENERIC_DESKTOP || intValue == 0 || (usage != HID_USAGE_GD_X && usage != HID_USAGE_GD_Y) ==>
                !hung && Net() == old(Net()) && currentScreen == old(currentScreen) && unchanged(observer)
      ensures usagePage == HID_PAGE_GENERIC_DESKTOP && intValue != 0 && (usage == HID_USAGE_GD_X || usage == HID_USAGE_GD_Y) ==>
              var axis := if usage == HID_USAGE_GD_X then X_AXIS else Y_AXIS;
              var x, y := old(observer.cursorX), old(observer.cursorY);
              var edge := HidEdge(axis, x, y, observer.screenWidth, observer.screenHeight);
              var owner := if edge.Some? then OwnerAfterHit(old(clientIDMap), edge.value) else old(currentScreen);
              var hookScreen := if edge.Some? then owner else old(observer.currScreen);
              var net := if hookScreen < SCREEN_END
                         then ForwardAxis(old(Net()), owner, axis, intValue, sendOk, closed)
                         else old(Net());
              observer.currX == x && observer.currY == y &&
              if edge.Some? && old(blocked) then
                hung && Net() == old(Net()) && currentScreen == old(currentScreen)
                && observer.currScreen == old(observer.currScreen)
                && observer.cursorX == x && observer.cursorY == y
              else
                currentScreen == owner && observer.currScreen == hookScreen && Net() == net
                && hung == (hookScreen < SCREEN_END && owner < SCREEN_END && net.blocked)
                && (if hookScreen < SCREEN_END && !hung
                    then observer.cursorX == Half(observer.screenWidth) && observer.cursorY == Half(observer.screenHeight)
                    else observer.cursorX == x && observer.cursorY == y)
    {
      hung := false;
      if usagePage != HID_PAGE_GENERIC_DESKTOP || intValue == 0 {
        return;
      }
      var axis: int;
      if usage == HID_USAGE_GD_X {
        axis := X_AXIS;
      } else if usage == HID_USAGE_GD_Y {
        axis := Y_AXIS;
      } else {
        return;
      }
      observer.ReadCursor();
      var edge := HidEdge(axis, observer.currX, observer.currY, observer.screenWidth, observer.screenHeight);
      if edge.Some? {
        hung := SetCurrentScreen(edge.value);
        if hung {
          return;
        }
      }
      if observer.currScreen < SCREEN_END {
        hung := SendMouseMovePacket(axis, intValue, sendOk);
        if hung {
          return;
        }
        observer.SetMousePosition(Half(observer.screenWidth), Half(observer.screenHeight));
      }
    }

    /** The low-level keyboard hook: a key-down of a listed code is handed
        to sendKeyPressPacket while the hook's `currScreen` says a peer owns
        input; the raw virtual-key code goes out as the key. */
    method KeyboardHook(nCode: int, wParam: int, vkCode: Int32, sendOk: bool) returns (hung: bool)
      modifies this`clientIDMap, this`outbox, this`blocked
      ensures !ForwardsKey(nCode, wParam, vkCode, observer.currScreen) ==> !hung && Net() == old(Net())
      ensures ForwardsKey(nCode, wParam, vkCode, observer.currScreen) ==>
                hung == (currentScreen < SCREEN_END && blocked)
                && Net() == if currentScreen < SCREEN_END
                            then SendStep(old(Net()), currentScreen, KeyPressPacket(vkCode), sendOk, closed)
                            else old(Net())
    {
      hung := false;
      if nCode == HC_ACTION && (wParam == WM_KEYDOWN || wParam == WM_SYSKEYDOWN) {
        if vkCode in HOOK_KEY_CODES && observer.currScreen < SCREEN_END {
          hung := SendKeyPressPacket(vkCode, sendOk);
        }
      }
    }
  }
}
