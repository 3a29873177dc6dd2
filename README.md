# NetworkCursor input-ownership core in Dafny

NetworkCursor is a software KVM. A host machine runs the server and shares its
keyboard and mouse with up to four peer machines placed to its right, left,
top and bottom. When the host cursor reaches a screen edge with a registered
peer behind it, the peer takes input: the host forwards each mouse delta and
key press to it and re-centres its own cursor. The peer replays the moves
and echoes its cursor position back, and input returns to the host when that
echo lies on the peer's edge facing the host.

This project models the part of the program that decides who owns input and
what crosses the wire:

- `defines.dfy` (`Defines`): screen directions, the `SMonitor` registry
  record, the 32-bit `int` range and its wrap-around.
- `packet.dfy` (`Packet`): the five packed packet structs as bytes
  (little-endian, two's complement), header dispatch, and round-trip lemmas.
- `key_mappings.dfy` (`KeyMappings`): `eKey`, `eOS` and the three platform
  key tables, with proofs that the tables are injective and which keys
  each one covers.
- `input_observer.dfy` (`InputObserver`): `SMouseCoords`, the edge tests of
  the Windows raw-input hook and of the macOS HID callback, `isAtBorder`,
  the key-hook gate, and the observer object whose `currScreen`, cursor
  and deltas the hooks update.
- `server.dfy` (`Server`): the server as a class holding the registry
  `clientIDMap`, the owner `currentScreen`, the observer, and the sends the
  network accepted. It covers registration, the echo test, disconnect
  cleanup, the send path and the three hook procedures wired to the
  server's callbacks. Each is proved against pure functions such as
  `SendStep` and `ForwardMove`. The connection handler is proved against
  `ServeStep` (one pass of its loop on a `ServerState` value) and
  `ServeRun` (the loop over a run of receives).
- `client.dfy` (`Client`): the client as a class; `connectToServer`; the
  listener loop, proved against the pure `Step` and `Run`.
- `protocol.dfy` (`Protocol`): how the two ends combine. A request is
  decoded by the server, a reply is accepted by the client, a split X/Y
  move is recombined by the client and the echo arrives back. A client's
  request and echo are run through the server's handler pass. It also
  shows that a forwarded key is the raw virtual-key code.
- `scenarios.dfy` (`Scenarios`): concrete runs on 1920 x 1080 screens.

Sends, receives and hangs are explicit in the model:

- The server records in `outbox` only the sends the network accepted.
  Whether the network accepts a send is a parameter, and a closed or
  invalid socket never accepts data.
- A receive is a `RecvResult`: bytes, an orderly close, or an error.
- `sendPacketToClient` calls `setCurrentScreen` while it already holds the
  non-recursive `mapMutex`. When that happens the server sets `blocked`,
  and from then on every step that needs the mutex reports `hung` and
  changes nothing.

### Behaviour of the code that the model keeps

The model follows the code:

- `handleClient` never assigns `clientDirection`, so it stays -1. The
  cleanup therefore erases key -1, not the peer's entry, and never resets
  ownership (`Server.Server.DisconnectCleanup`,
  `Scenarios.MinusOneErasedByAnyCleanup`).
- No direction is refused at registration. The server inserts any
  direction not yet present, including -1 or 7. The client only refuses
  `SCREEN_END` and above.
- A position echo is tested against the current owner, whichever
  connection sent it. For a LEFT or TOP owner, `clientIDMap[currentScreen]`
  inserts a default entry when there is none (`Server.Server.HandleEcho`).
  The thresholds `width - 1` and `height - 1` are 32-bit subtractions, so a
  registered width of INT32_MIN gives INT32_MAX (`Server.EchoThresholdWraps`).
- A failed send erases the entry but leaves the owner in place. A send to a
  missing entry calls `setCurrentScreen` under the held mutex and
  deadlocks. As a result the owner can be a direction with no entry
  (`Scenarios.OwnerDisconnectDeadlock`).
- The raw-input hook tests the border on every event, not only while the
  host owns input. After a hit it overwrites `currScreen` with the edge
  even when no peer is registered there. It then forwards nothing but keeps
  re-centring the host cursor (`Scenarios.UnregisteredEdgeTrap`).
- The hooks call the server directly; nothing is queued.
- `SPacketKeyboardInput` carries `key` and `os`, not a pressed flag. The key
  hook sends the Windows virtual-key code itself as `key`, so the client
  reads 'A' (65) as `KEY_NUMPAD0` (`Protocol.VirtualKeyReadAsKey`).

## Model

| member | source | states |
|---|---|---|
| Defines.Wrap32 | server/input_observer.cpp:417-418 | a C++ `int` sum as two's-complement wrap-around: in-range sums are kept, others differ by a multiple of 2^32 |
| Defines.DirectionValues | common/defines.h:23-29 | the directions are RIGHT=0, LEFT=1, TOP=2, BOTTOM=3, and SCREEN_END is none of them |
| Defines.DefaultMonitor | common/defines.h:17 | a default SMonitor has width, height and direction 0 and an invalid socket |
| Packet.Encode | common/packet.h:6-43 | each packed struct is exactly its size: AddClient 80, the three int triples 12, Response 5 bytes |
| Packet.DecodeAddClient | server/server.cpp:111-112 | memcpy of an AddClient out of the buffer yields an AddClient with a 64-byte identifier |
| Packet.DecodeMouseMove | client/client.cpp:128-129 | memcpy of a MouseMove out of the buffer yields a MouseMove |
| Packet.DecodeMouseMoveResponse | server/server.cpp:139-140 | memcpy of a MouseMoveResponse out of the buffer yields a MouseMoveResponse |
| Packet.DecodeKeyboardInput | client/client.cpp:142-143 | memcpy of a KeyboardInput out of the buffer yields a KeyboardInput |
| Packet.DecodeResponse | client/client.cpp:72-75 | the reply struct read from the buffer is a Response |
| Packet.Parse | common/packet.h:45-51 | the reference dispatch the round-trip lemmas use (neither end has such a function; each switches on the header of its 1024-byte buffer): a recognised buffer yields a packet whose header and kind tag are the buffer's header and whose size fits the buffer |
| Packet.DecodeEncodeInt32 | common/packet.h:20-32 | decoding the four bytes of any int32 gives it back, whatever follows |
| Packet.EncodeDecodeInt32 | common/packet.h:20-32 | every four bytes are the encoding of the int32 they decode to |
| Packet.HeaderOfEncode | common/packet.h:8-43 | the first four bytes of every encoded packet decode to its header |
| Packet.DecodeEncode | common/packet.h:8-43 | decoding an encoded packet followed by any bytes gives back every field |
| Packet.ParseEncode | common/packet.h:8-51 | a packet whose header is its kind's tag is dispatched and decoded to itself |
| Packet.EncodeParse | common/packet.h:8-51 | a dispatched buffer is the encoding of its decoded packet exactly when it is not a Response with a status byte above 1 |
| Packet.DefaultAddClientIsZeroBytes | common/packet.h:15-17 | a default AddClient is 80 zero bytes and so reads as an AddClient for direction 0 |
| Packet.DefaultMouseMoveUnrecognised | common/packet.h:25 | a default MouseMove carries header -1, which header dispatch does not recognise |
| KeyMappings.OSOf | common/keyMappings.h:6-10 | the eOS enumerator found for a value has that value |
| KeyMappings.OSValues | common/keyMappings.h:6-10 | eOS has exactly the values 0, 1 and 2, one per enumerator |
| KeyMappings.KeyLayout | common/keyMappings.h:12-50 | KEY_A..KEY_Z are 0..25, KEY_0..KEY_9 follow as 26..35, and the two click keys are the last two values |
| KeyMappings.WindowsKeyMap | common/keyMappings.cpp:4-39 | no Windows code maps to a click key |
| KeyMappings.WindowsCodeOfLookup | common/keyMappings.cpp:4-39 | every mapped Windows code is the one listed for its key |
| KeyMappings.WindowsLookupCodeOf | common/keyMappings.cpp:4-39 | every key except the click keys has a Windows code |
| KeyMappings.WindowsInjective | common/keyMappings.cpp:4-39 | no two Windows codes map to the same key |
| KeyMappings.WindowsCoverage | common/keyMappings.cpp:4-39 | a key has a Windows code exactly when it is not a click key |
| KeyMappings.MacKeyMap | common/keyMappings.cpp:41-76 | no macOS code maps to a click key |
| KeyMappings.MacCodeOfLookup | common/keyMappings.cpp:41-76 | every mapped macOS code is the first one listed for its key |
| KeyMappings.MacLookupCodeOf | common/keyMappings.cpp:41-76 | every key except DECIMAL, DIVIDE and the click keys has a macOS code |
| KeyMappings.MacInjective | common/keyMappings.cpp:41-76 | no two macOS codes map to the same key |
| KeyMappings.MacCoverage | common/keyMappings.cpp:41-76 | a key has a macOS code exactly when it is none of DECIMAL, DIVIDE and the click keys |
| KeyMappings.LinuxKeyMap | common/keyMappings.cpp:78-113 | no Linux code maps to a click key |
| KeyMappings.LinuxCodeOfLookup | common/keyMappings.cpp:78-113 | every mapped Linux code is the one listed for its key |
| KeyMappings.LinuxLookupCodeOf | common/keyMappings.cpp:78-113 | every key except the click keys has a Linux code |
| KeyMappings.LinuxInjective | common/keyMappings.cpp:78-113 | no two Linux codes map to the same key |
| KeyMappings.LinuxCoverage | common/keyMappings.cpp:78-113 | a key has a Linux code exactly when it is not a click key |
| KeyMappings.WindowsLetters | common/keyMappings.cpp:6-12 | Windows codes 65..90 are KEY_A..KEY_Z in order, and no other code maps to a letter |
| KeyMappings.WindowsDigits | common/keyMappings.cpp:15-17 | Windows codes 48..57 are KEY_0..KEY_9 in order, and no other code maps to a digit |
| KeyMappings.WindowsFunctionKeys | common/keyMappings.cpp:20-22 | Windows codes 112..123 are KEY_F1..KEY_F12 in order, and no other code maps to one |
| KeyMappings.MacRepeatedCodes | common/keyMappings.cpp:68-72 | the first entries for 65 and 75 win (NUMPAD9, NUMPAD1), so DECIMAL and DIVIDE have no macOS code |
| KeyMappings.NoCodeIsAClick | common/keyMappings.cpp:4-113 | no table maps any code to KEY_LCLICK or KEY_RCLICK |
| InputObserver.Clamp32 | server/input_observer.h:27-28 | the clamp gives the int32 closest to the LONG value |
| InputObserver.Clamp32Properties | server/input_observer.h:26-29 | in-range values are kept, out-of-range ones go to the nearer bound, and clamping is idempotent |
| InputObserver.MouseCoords.constructor | server/input_observer.h:24 | a new SMouseCoords has both deltas 0 |
| InputObserver.MouseCoords.SetFromLong | server/input_observer.h:26-29 | each delta becomes the clamp of its argument |
| InputObserver.BorderEdge | server/input_observer.cpp:154-171 | a reported edge is one of the four directions |
| InputObserver.BorderPrecedence | server/input_observer.cpp:154-170 | each edge is reported exactly when its threshold holds and none of higher precedence does; none when all four thresholds are false |
| InputObserver.HidXEdge | server/input_observer.cpp:323-330 | an X event reports only LEFT or RIGHT |
| InputObserver.HidYEdge | server/input_observer.cpp:342-349 | a Y event reports only TOP or BOTTOM |
| InputObserver.HidEdgesAgree | server/input_observer.cpp:320-356 | each HID axis test gives the raw-input classifier's answer whenever the other coordinate is inside the screen |
| InputObserver.IsAtBorder | server/input_observer.cpp:398-401 | a position isAtBorder reports is also a border hit for the hook |
| InputObserver.IsAtBorderThresholds | server/input_observer.cpp:398-401 | isAtBorder implies a border hit, but at x = w-1 the hook reports RIGHT while isAtBorder is false |
| InputObserver.Half | server/input_observer.cpp:180 | `v / 2` truncates toward zero |
| InputObserver.HookKeyCodesAre | server/input_observer.h:67-78 | the hook's keyMap holds exactly the letters, the digits and eight control keys |
| InputObserver.ForwardsKey | server/input_observer.cpp:193-199 | a key is handed on exactly when the event is a key-down (WM_KEYDOWN or WM_SYSKEYDOWN) of a listed code while `currScreen` names a peer |
| InputObserver.Observer.constructor | server/input_observer.h:54 | `currScreen` starts at SCREEN_END: the host owns input |
| InputObserver.Observer.ReadCursor | server/input_observer.cpp:146 | getMousePosition copies the OS cursor into currX/currY and changes nothing else |
| InputObserver.Observer.SetMousePosition | server/input_observer.h:98 | the OS cursor moves to the given point and nothing else changes |
| InputObserver.Observer.MoveByOffset | server/input_observer.cpp:413-421 | the cursor moves to its position plus the offsets |
| InputObserver.Observer.IsAtBorderNow | server/input_observer.cpp:398-401 | the answer is isAtBorder of the last read position |
| Server.Touch | server/server.cpp:148 | `operator[]` adds the key with a default entry if absent and keeps every other entry |
| Server.EchoReturnsControl | server/server.cpp:142-159 | only a peer owner (one of the four directions) can hand input back |
| Server.EchoThresholdWraps | server/server.cpp:147-150 | a LEFT peer registered with width INT32_MIN gets the wrapped threshold INT32_MAX, so only x = INT32_MAX hands input back |
| Server.EchoIsOppositeEdge | server/server.cpp:142-159 | for an on-screen position, the echo returns control exactly when the peer's cursor is on the edge facing the host |
| Server.EchoAgainstMissingEntry | server/server.cpp:147-157 | with no entry, a LEFT or TOP owner's echo test runs against width/height 0 and passes for any coordinate of at least -1 |
| Server.MouseMovePacket | server/server.cpp:267-285 | a valid axis yields a MOUSE_MOVE packet carrying the value in that axis's field and 0 in the other; an invalid axis yields nothing |
| Server.KeyPressPacket | server/server.cpp:291-292 | a KEYBOARD_INPUT packet carrying the key unchanged and os 0 |
| Server.SendStep | server/server.cpp:220-250 | the sender blocks exactly when already blocked or the target has no entry; the target keeps its entry exactly when the send is not attempted or succeeds; a packet goes out only on the target's socket, with the registry unchanged |
| Server.SendStepFrame | server/server.cpp:220-250 | a send never adds or alters an entry, can only remove its target, appends at most one packet, and never unblocks |
| Server.ForwardAxis | server/server.cpp:267-289 | nothing happens while the host owns input; a packet goes out only to a registered owner, carrying the value on that axis |
| Server.ForwardMove | server/input_observer.cpp:174-178 | the owner receives nothing, the X move, or the X move then the Y move, on its socket; never the Y move alone |
| Server.ForwardToLiveOwner | server/input_observer.cpp:174-178 | a live owner receives the X move and then the Y move on its own socket |
| Server.ForwardToClosedOwner | server/server.cpp:226-246 | a closed owner loses its entry on the X move, and the Y move then deadlocks with nothing delivered |
| Server.ForwardToMissingOwner | server/server.cpp:230-233 | a move to an owner without an entry deadlocks the sender |
| Server.ForwardWhileHostOwns | server/server.cpp:286-288 | nothing is forwarded while the host owns input |
| Server.ServerBuffer | server/server.cpp:103-105 | the buffer holds the received bytes followed by zeros |
| Server.HidEdge | server/input_observer.cpp:320-349 | an X event tests only left/right, a Y event only top/bottom |
| Server.OwnerAfterHit | server/server.cpp:252-265 | after a border hit, the owner is the edge if it is registered and SCREEN_END otherwise |
| Server.ServeRun | server/server.cpp:98-193 | passes run in order until one does not end Running; a run still Running has used every outcome, a stopped one at least one |
| Server.ServeAddClient | server/server.cpp:110-136 | an ADD_CLIENT packet registers its direction to this socket exactly when the direction was free; the reply status says which; a refused socket is closed and the handler ends Refused; the owner is unchanged; with the mutex lost it hangs and changes nothing |
| Server.ServeEcho | server/server.cpp:138-161 | a position echo, from any connection, hands input back to the host exactly when the test passes for the current owner (Hung instead if the mutex is lost); nothing is sent or closed; a LEFT/TOP owner gains an entry |
| Server.AdmitFrame | server/server.cpp:110-136 | registration keeps every entry, sends only a reply on its own socket, and leaves the owner |
| Server.EchoFrame | server/server.cpp:138-161 | the echo keeps every entry, sends nothing, and the owner stays or becomes SCREEN_END |
| Server.ServeStepFrame | server/server.cpp:102-192 | any pass keeps every entry but -1, sends only replies on its socket, the owner stays or becomes SCREEN_END, and it ends Disconnected exactly on a close or error with the mutex free |
| Server.ServeRunFrame | server/server.cpp:98-193 | a whole handler run keeps every entry but -1, sends only replies on its socket, and the owner stays or becomes SCREEN_END |
| Server.ServeRunReceived | server/server.cpp:98-193 | a run still going received every outcome; a stopped run received all before its last, and ends Disconnected only on a close or error there |
| Server.ServeRunExits | server/server.cpp:130-192 | a disconnect leaves key -1 gone and the socket closed, a refusal leaves the socket closed, a hang needs the mutex lost |
| Server.ServeRunExtends | server/server.cpp:100-193 | a run still going after k outcomes takes its next pass on outcome k+1 |
| Server.ServeRunStops | server/server.cpp:130-193 | once the run stops, later outcomes are never read |
| Server.Server.constructor | server/server.cpp:15-27 | a new server has no peers, and both it and its observer start with the host owning input |
| Server.Server.Transmit | server/server.cpp:237 | send() succeeds exactly when the network accepts and the socket is open, and only then is the packet recorded |
| Server.Server.SetCurrentScreen | server/server.cpp:252-265 | the owner and the observer's copy become the direction if it is registered and SCREEN_END otherwise; the registry is unchanged |
| Server.Server.RemoveClient | server/server.cpp:215-218 | the direction's entry is erased |
| Server.Server.SendPacketToClient | server/server.cpp:220-250 | the server's network state moves by SendStep: delivery, eviction on failure, or deadlock on a missing entry |
| Server.Server.SendMouseMovePacket | server/server.cpp:267-289 | an invalid axis changes nothing; a valid one is forwarded to the owner only while a peer owns input |
| Server.Server.SendKeyPressPacket | server/server.cpp:291-296 | the key is sent to the owner only while a peer owns input |
| Server.Server.Register | server/server.cpp:110-136 | the entry is inserted only if the direction is free, an existing entry is left unchanged, the reply status says whether it was inserted, and a refused socket is closed |
| Server.Server.HandleEcho | server/server.cpp:138-161 | the echo is tested against the current owner's return edge and resets the owner to SCREEN_END on a match; LEFT/TOP owners get a default entry when absent |
| Server.Server.DisconnectCleanup | server/server.cpp:183-192 | the entry for `clientDirection` is erased, the socket closed, and the owner left unchanged |
| Server.Server.ServeOne | server/server.cpp:102-192 | one recv changes the server as ServeStep says: the ADD_CLIENT branch registers or refuses, the echo branch may hand input back, an unknown header changes nothing, and a close cleans up key -1 |
| Server.Server.HandleClient | server/server.cpp:98-193 | the server's state, the exit and the count of outcomes read are ServeRun's; the loop stops at the first close, refusal or hang; only key -1 can lose its entry, only replies are sent, and the owner stays or becomes SCREEN_END |
| Server.Server.RawMouseInput | server/input_observer.cpp:143-182 | deltas clamped; at most one border hit, after which `currScreen` is the edge; while that names a peer, X then Y are forwarded and the cursor re-centred, otherwise nothing is sent and the cursor stays |
| Server.Server.HidInput | server/input_observer.cpp:302-360 | only nonzero generic-desktop X/Y events act; each tests only its own axis's edges and forwards the value on that axis while a peer owns input |
| Server.Server.KeyboardHook | server/input_observer.cpp:192-208 | a forwarded key is sent as the raw virtual-key code to the owner; any other event changes nothing |
| Client.RegistrationAccepted | client/client.cpp:75 | the client accepts a reply exactly when its first four bytes decode to SUCCESS_RESPONSE and its status byte is nonzero |
| Client.ReplyBuffer | client/client.cpp:72-73 | the uninitialised reply struct holds the received bytes in front and its indeterminate contents after them |
| Client.ListenerBuffer | client/client.cpp:121-123 | the listener buffer, declared anew on each pass, holds the received bytes in front and that pass's indeterminate contents after them |
| Client.Dispatch | client/client.cpp:124-161 | one packet makes at most one send or one injection; only a MouseMove sends, only a KeyboardInput injects, and the records only grow |
| Client.Step | client/client.cpp:120-175 | whatever the pass's fresh buffer held, a received pass keeps listening and only adds to the records; a close or error stops listening and does nothing else |
| Client.Run | client/client.cpp:117-177 | with one fresh-buffer image per pass, a stopped loop stays stopped and changes nothing; a loop still listening was listening at the start; the records only grow |
| Client.MouseMoveStep | client/client.cpp:127-139 | a MouseMove moves the cursor by its deltas and sends exactly one MOUSE_MOVE_RESPONSE with the new position |
| Client.KeyboardStep | client/client.cpp:141-155 | a click key is clicked, another key is pressed by its platform code only when that code is not negative, and nothing is sent |
| Client.OtherStep | client/client.cpp:157-174 | an unknown header changes nothing; a close or an error only stops listening |
| Client.RunStopsAtClose | client/client.cpp:163-174 | after the first close or error the loop is stopped and later outcomes change nothing |
| Client.StepOutputs | client/client.cpp:124-161 | one pass sends only echoes and injects only clicks on click keys or non-negative codes |
| Client.RunOutputs | client/client.cpp:117-177 | over any run, the records only grow, every packet sent is an echo, and every injection is a click on a click key or a non-negative code |
| Client.StepEchoIsPosition | client/client.cpp:132-137 | a pass either sends nothing and leaves the cursor, or sends one echo carrying the cursor's new position |
| Client.Client.constructor | client/client.cpp:15-17 | a new client is not listening and has sent nothing |
| Client.Client.ConnectToServer | client/client.cpp:50-101 | SCREEN_END or more is refused before connecting, a failed connect closes the socket, and success (which starts listening) happens exactly when the reply is SUCCESS_RESPONSE with a true status |
| Client.Client.Listen | client/client.cpp:117-177 | the loop's effect is Run over the outcomes it consumed and their passes' buffer images, and it consumes all of them unless a close or error stops it |
| Client.Client.ReceiveOne | client/client.cpp:120-175 | one pass, on a local buffer built from the received bytes and the fresh array's image, changes the client as Step says |
| Client.Client.MoveByOffset | client/input_provider.cpp:53-61 | the cursor moves to its position plus the offsets |
| Protocol.RegistrationRequestArrives | client/client.cpp:64-70 | the client's AddClient reaches the server as an ADD_CLIENT header and the same fields |
| Protocol.RegistrationReplyRoundTrip | client/client.cpp:72-84 | the client accepts the server's reply exactly when its status says the entry was inserted |
| Protocol.RequestRegisters | server/server.cpp:110-136 | a client's request, run through the server's handler pass, registers it with its screen size and socket exactly when its direction was free, and the client reads the reply as accepted exactly then |
| Protocol.EchoReturnsInput | server/server.cpp:138-161 | a client's echo, run through the server's handler pass, returns input to the host exactly when the echo test passes for the current owner |
| Protocol.MoveArrives | client/client.cpp:127-139 | a single-axis move from the server moves the client's cursor on that axis only and is echoed once |
| Protocol.SplitMoveRecombines | server/input_observer.cpp:174-178 | the X and Y moves of one event together move the client's cursor by the whole delta, with two echoes, the last at the final position, whatever the two fresh buffers held |
| Protocol.EchoArrives | server/server.cpp:138-141 | the client's echo reaches the server as a MOUSE_MOVE_RESPONSE with the same position |
| Protocol.KeyArrives | client/client.cpp:141-155 | a key the server sends is replayed by the client as that same number |
| Protocol.VirtualKeyReadAsKey | server/input_observer.cpp:195-199 | every forwarded letter or digit arrives as a different logical key than the Windows table gives for it; 'A' arrives as KEY_NUMPAD0, and 'S' and 'T' arrive as the two click keys |
| Protocol.LettersSAndTClick | client/client.cpp:141-145 | 'S' and 'T' pressed on the host are forwarded and replayed by the client as a left and a right click |
| Scenarios.OwnerDisconnectDeadlock | server/server.cpp:183-250 | an owner that disconnects keeps its entry and ownership; the next mouse event evicts it and deadlocks, leaving an owner with no entry |
| Scenarios.UnregisteredEdgeTrap | server/input_observer.cpp:159-181 | at an edge with no peer the server keeps input, but the hook's `currScreen` names the edge, so the cursor is re-centred and nothing is sent |
| Scenarios.UnregisteredEdgeHid | server/input_observer.cpp:320-337 | on the HID path the same edge leaves the host in control and the cursor where it was |
| Scenarios.MinusOneErasedByAnyCleanup | server/server.cpp:183-192 | an entry under -1 is erased by the cleanup of another connection, whose own entry stays |

## Left out

- Sockets themselves are not modelled: creation, bind, listen, accept, connect and WSAStartup. Sends become `outbox`/`sent` records with the network's answer as a parameter, and receives are inputs (`RecvResult`).
- Threads, `detach` and `join` are left out. Each operation is one atomic step. `mapMutex` appears only as the `blocked` flag for the self-deadlock, and interleavings of the `listening` flag are not modelled.
- The hooks' setup and plumbing are left out: window, hook and HID-manager setup, `GetRawInputData` buffer handling, the macOS key event tap (which only logs), and `update`/`start`/`stop`. These are foreign platform calls.
- Server.Server.RawMouseInput: the OS moves the cursor outside the model, so the position the hook reads is the observer's cursor as the caller set it.
- Client.Client.ConnectToServer: the identifier is a parameter. `sizeof(identifier)` on a std::string is not modelled.
- Client.Client.ReceiveOne: the input provider is abstract. `getPlatformKeyCode` is a fixed function, `simulateKeyPress`, `simulateMouseClick` and `getMousePosition` are records and state of the client, and `packet.isPressed`, which the packet struct does not have, is not passed.
- Client.ListenerBuffer: each pass's array is uninitialised, so the model takes its contents as an arbitrary image given per pass and every property holds for all images; a recv shorter than a packet is decoded over those bytes. TCP's splitting and merging of packets across recv calls is not modelled.
- Defines.Wrap32: signed overflow of C++ `int` is modelled as two's-complement wrap-around, where C++ leaves it undefined. This covers the cursor sums and the echo thresholds `width - 1` and `height - 1`.
- Packet.Encode: byte order is fixed to little-endian.
- InputObserver.Half: screen sizes as float values from CoreGraphics and their truncation to `int` are not modelled; sizes are given as `Int32`.
- Defines.DefaultMonitor: `SMonitor::neighbors` is not used by the core and is not modelled.
- The debug `keyMap` strings of the observer are left out. Only which codes the hook accepts is kept.
- Client.Client.constructor: the C++ constructor leaves the atomic `listening` uninitialised; the model starts it false.
- `main`, the CLI prompts, logging and the client's `stopListening`/destructor are left out.
