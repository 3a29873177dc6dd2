/*
 * Concrete runs of the server through its hooks and handlers, showing how
 * the pieces combine: what happens when the peer that owns input goes
 * away, what an edge without a peer does to the host cursor on each input
 * path, and what the cleanup of any connection does to a peer registered
 * under direction -1. Screens are 1920 x 1080 throughout.
 */
module Scenarios {

  import opened Defines
  import opened Packet
  import opened InputObserver
  import Server

  const WIDTH: Int32 := 1920
  const HEIGHT: Int32 := 1080

  function Request(direction: Int32): (p: Packet)
    ensures p.AddClient? && WellFormed(p) && p.direction == direction
  {
    AddClient(HEADER_ADD_CLIENT, seq(IDENTIFIER_SIZE, _ => 0), 1280, 720, direction)
  }

  /** A peer registers on the right and takes input when the host cursor
      reaches the right edge. It then disconnects: the cleanup erases key
      -1, so its entry and its ownership stay. The next mouse event's X move
      fails on the closed socket and evicts the entry, and its Y move finds
      no entry and deadlocks the hook, with the dead peer still the owner
      although it no longer has an entry. */
  method OwnerDisconnectDeadlock() returns (handedOver: bool, keptAfterDisconnect: bool, hung: bool, owner: int,
                                            ownerRegistered: bool)
    ensures handedOver && keptAfterDisconnect && hung && owner == SCREEN_RIGHT && !ownerRegistered
  {
    var server := new Server.Server(WIDTH, HEIGHT, 960, 540);
    var peer := Socket(1);
    var added, stuck := server.Register(peer, Request(SCREEN_RIGHT), true);

    server.observer.SetMousePosition(WIDTH - 1, 500);
    stuck := server.RawMouseInput(5, 0, true, true);
    handedOver := server.currentScreen == SCREEN_RIGHT && !stuck;

    stuck := server.DisconnectCleanup(peer, -1);
    keptAfterDisconnect := SCREEN_RIGHT in server.clientIDMap && server.currentScreen == SCREEN_RIGHT;

    server.observer.SetMousePosition(960, 540);
    ghost var before := server.Net();
    Server.ForwardToClosedOwner(before, SCREEN_RIGHT, 3, 4, true, true, server.closed);
    hung := server.RawMouseInput(3, 4, true, true);
    owner := server.currentScreen;
    ownerRegistered := owner in server.clientIDMap;
  }

  /** With no peer on the right, reaching the right edge through the
      raw-input hook leaves the server owning input, but the hook's own
      `currScreen` is overwritten with RIGHT: every later event re-centres
      the host cursor and nothing is sent, and key presses are handed to a
      server that drops them. */
  method UnregisteredEdgeTrap() returns (owner: int, hookScreen: int, x: Int32, y: Int32, sent: nat, hung: bool)
    ensures owner == SCREEN_END && hookScreen == SCREEN_RIGHT
    ensures x == Half(WIDTH) && y == Half(HEIGHT) && sent == 0 && !hung
  {
    var server := new Server.Server(WIDTH, HEIGHT, 960, 540);
    server.observer.SetMousePosition(WIDTH - 1, 500);
    hung := server.RawMouseInput(5, 0, true, true);

    server.observer.SetMousePosition(1000, 300);
    var stuck := server.RawMouseInput(40, -240, true, true);
    hung := hung || stuck;
    stuck := server.KeyboardHook(HC_ACTION, WM_KEYDOWN, 0x41, true);
    hung := hung || stuck;

    owner, hookScreen := server.currentScreen, server.observer.currScreen;
    x, y := server.observer.cursorX, server.observer.cursorY;
    sent := |server.outbox|;
  }

  /** The same edge reached through the HID callback: the border callback
      resets ownership to the host and the callback leaves `currScreen` as
      the server set it, so nothing is forwarded and the cursor stays at the
      edge. */
  method UnregisteredEdgeHid() returns (owner: int, hookScreen: int, x: Int32, y: Int32, sent: nat, hung: bool)
    ensures owner == SCREEN_END && hookScreen == SCREEN_END
    ensures x == WIDTH - 1 && y == 500 && sent == 0 && !hung
  {
    var server := new Server.Server(WIDTH, HEIGHT, 960, 540);
    server.observer.SetMousePosition(WIDTH - 1, 500);
    hung := server.HidInput(Server.HID_PAGE_GENERIC_DESKTOP, Server.HID_USAGE_GD_X, 5, true);
    owner, hookScreen := server.currentScreen, server.observer.currScreen;
    x, y := server.observer.cursorX, server.observer.cursorY;
    sent := |server.outbox|;
  }

  /** A client may register under direction -1 (connectToServer only
      refuses SCREEN_END and above). Its entry is erased by the cleanup of
      whichever connection ends next, while a peer on the left keeps its
      entry through its own disconnect. */
  method MinusOneErasedByAnyCleanup() returns (registered: bool, erased: bool, leftKept: bool, exit: Server.Exit)
    ensures registered && erased && leftKept && exit == Server.Disconnected
  {
    var server := new Server.Server(WIDTH, HEIGHT, 960, 540);
    var odd, left := Socket(2), Socket(3);
    var added, stuck := server.Register(odd, Request(-1), true);
    added, stuck := server.Register(left, Request(SCREEN_LEFT), true);
    registered := -1 in server.clientIDMap && SCREEN_LEFT in server.clientIDMap;

    exit := server.ServeOne(left, PeerClosed, true);
    erased := -1 !in server.clientIDMap;
    leftKept := SCREEN_LEFT in server.clientIDMap;
  }
}
