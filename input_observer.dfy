/*
 * The host-side input observer (server/input_observer.h and
 * server/input_observer.cpp): the raw mouse delta record, the screen-edge
 * classifiers used by the Windows raw-input hook and the macOS HID
 * callback, the key-hook gate, and the observer object whose fields those
 * hooks update. The OS cursor is abstract state of the observer: reading it
 * is getMousePosition, writing it is setMousePosition.
 */
module InputObserver {

  import opened Defines

  // ---------------------------------------------------------------------
  // SMouseCoords

  /** The int32 closest to v: the clamp setFromLong applies to a LONG. */
  function Clamp32(v: int): (r: Int32)
    ensures forall y: Int32 :: Distance(r, v) <= Distance(y, v)
  {
    if v < INT32_MIN then INT32_MIN else if v > INT32_MAX then INT32_MAX else v
  }

  function Distance(a: int, b: int): nat {
    if a <= b then b - a else a - b
  }

  /** Clamping keeps values already in range and so is idempotent. */
  lemma Clamp32Properties(v: int)
    ensures INT32_MIN <= v <= INT32_MAX ==> Clamp32(v) == v
    ensures Clamp32(Clamp32(v)) == Clamp32(v)
    ensures v < INT32_MIN ==> Clamp32(v) == INT32_MIN
    ensures v > INT32_MAX ==> Clamp32(v) == INT32_MAX
  {
    var y: Int32 := if v < INT32_MIN then INT32_MIN else if v > INT32_MAX then INT32_MAX else v;
    assert Distance(Clamp32(v), v) <= Distance(y, v);
  }

  /** Raw mouse deltas of the last WM_INPUT event. */
  class MouseCoords {
    var xDelta: Int32
    var yDelta: Int32

    constructor ()
      ensures xDelta == 0 && yDelta == 0
    {
      xDelta, yDelta := 0, 0;
    }

    method SetFromLong(x: int, y: int)
      modifies this
      ensures xDelta == Clamp32(x) && yDelta == Clamp32(y)
    {
      xDelta := if x < INT32_MIN then INT32_MIN else if x > INT32_MAX then INT32_MAX else x;
      yDelta := if y < INT32_MIN then INT32_MIN else if y > INT32_MAX then INT32_MAX else y;
    }
  }

  // ---------------------------------------------------------------------
  // Edge classification

  /** The edge the Windows raw-input hook reports for cursor (x, y) on a
      w-by-h screen: the left and right edges take precedence over the top
      and bottom, and None means the cursor is inside. */
  function BorderEdge(x: int, y: int, w: int, h: int): (r: Option<int>)
    ensures r.Some? ==> IsDirection(r.value)
  {
    if x <= 0 || x >= w - 1 || y <= 0 || y >= h - 1 then
      if x <= 0 then Some(SCREEN_LEFT)
      else if x >= w - 1 then Some(SCREEN_RIGHT)
      else if y <= 0 then Some(SCREEN_TOP)
      else Some(SCREEN_BOTTOM)
    else None
  }

  /** Each edge is reported exactly when its own threshold is crossed and
      none of higher precedence is; at most one edge is reported, and none
      when every threshold is false. */
  lemma BorderPrecedence(x: int, y: int, w: int, h: int)
    ensures BorderEdge(x, y, w, h) == Some(SCREEN_LEFT) <==> x <= 0
    ensures BorderEdge(x, y, w, h) == Some(SCREEN_RIGHT) <==> 0 < x && x >= w - 1
    ensures BorderEdge(x, y, w, h) == Some(SCREEN_TOP) <==> 0 < x < w - 1 && y <= 0
    ensures BorderEdge(x, y, w, h) == Some(SCREEN_BOTTOM) <==> 0 < x < w - 1 && 0 < y && y >= h - 1
    ensures BorderEdge(x, y, w, h).None? <==> 0 < x < w - 1 && 0 < y < h - 1
  {
  }

  /** The macOS HID callback's test for an X event: left or right only. */
  function HidXEdge(x: int, w: int): (r: Option<int>)
    ensures r.Some? ==> r.value == SCREEN_LEFT || r.value == SCREEN_RIGHT
  {
    if x <= 0 then Some(SCREEN_LEFT) else if x >= w - 1 then Some(SCREEN_RIGHT) else None
  }

  /** The macOS HID callback's test for a Y event: top or bottom only. */
  function HidYEdge(y: int, h: int): (r: Option<int>)
    ensures r.Some? ==> r.value == SCREEN_TOP || r.value == SCREEN_BOTTOM
  {
    if y <= 0 then Some(SCREEN_TOP) else if y >= h - 1 then Some(SCREEN_BOTTOM) else None
  }

  /** The HID tests agree with the raw-input classifier on each axis: an X
      event sees what the classifier sees when y is inside, and a Y event
      what it sees when x is inside. */
  lemma HidEdgesAgree(x: int, y: int, w: int, h: int)
    ensures 0 < y < h - 1 ==> HidXEdge(x, w) == BorderEdge(x, y, w, h)
    ensures 0 < x < w - 1 ==> HidYEdge(y, h) == BorderEdge(x, y, w, h)
  {
  }

  /** InputObserver::isAtBorder, with its own thresholds: a position it
      reports is one the hook also reports as a border hit. */
  function IsAtBorder(x: int, y: int, w: int, h: int): (r: bool)
    ensures r ==> BorderEdge(x, y, w, h).Some?
  {
    x == 0 || x - 1 >= w || y == 0 || y - 1 >= h
  }

  /** isAtBorder implies a border hit, but not conversely: the last column
      x = w - 1 is the right edge for the hook yet not "at the border". */
  lemma IsAtBorderThresholds(x: int, y: int, w: int, h: int)
    ensures IsAtBorder(x, y, w, h) ==> BorderEdge(x, y, w, h).Some?
    ensures w >= 2 && 0 < y < h - 1 ==>
              BorderEdge(w - 1, y, w, h) == Some(SCREEN_RIGHT) && !IsAtBorder(w - 1, y, w, h)
  {
  }

  /** C++ `v / 2` on an int, truncating toward zero. */
  function Half(v: Int32): (r: Int32)
    ensures v >= 0 ==> 0 <= r && r + r <= v <= r + r + 1
    ensures v < 0 ==> r <= 0 && r + r >= v >= r + r - 1
  {
    var u: int := v;
    if u >= 0 then u / 2 else -((-u) / 2)
  }

  // ---------------------------------------------------------------------
  // Keyboard hook gate

  const HC_ACTION: int := 0
  const WM_KEYDOWN: int := 0x0100
  const WM_SYSKEYDOWN: int := 0x0104

  const VK_BACK: int := 0x08
  const VK_TAB: int := 0x09
  const VK_RETURN: int := 0x0D
  const VK_SHIFT: int := 0x10
  const VK_CONTROL: int := 0x11
  const VK_MENU: int := 0x12
  const VK_ESCAPE: int := 0x1B
  const VK_SPACE: int := 0x20

  /** The virtual-key codes listed in the Windows debug keyMap: letters,
      digits, and eight control keys. Only membership is modelled. */
  const HOOK_KEY_CODES: set<int> :=
    {0x41, 0x42, 0x43, 0x44, 0x45, 0x46, 0x47, 0x48, 0x49, 0x4A, 0x4B, 0x4C, 0x4D,
     0x4E, 0x4F, 0x50, 0x51, 0x52, 0x53, 0x54, 0x55, 0x56, 0x57, 0x58, 0x59, 0x5A,
     0x30, 0x31, 0x32, 0x33, 0x34, 0x35, 0x36, 0x37, 0x38, 0x39,
     VK_RETURN, VK_SPACE, VK_TAB, VK_BACK, VK_ESCAPE, VK_SHIFT, VK_CONTROL, VK_MENU}

  /** The listed codes are exactly the letters 'A'..'Z', the digits
      '0'..'9' and the eight named control keys. */
  lemma HookKeyCodesAre(code: int)
    ensures code in HOOK_KEY_CODES <==>
      (0x41 <= code <= 0x5A || 0x30 <= code <= 0x39 ||
       code == VK_RETURN || code == VK_SPACE || code == VK_TAB || code == VK_BACK ||
       code == VK_ESCAPE || code == VK_SHIFT || code == VK_CONTROL || code == VK_MENU)
  {
  }

  /** Whether LowLevelKeyboardProc hands a key to the key-press callback. */
  function ForwardsKey(nCode: int, wParam: int, vkCode: int, currScreen: int): (r: bool)
    ensures r ==> vkCode in HOOK_KEY_CODES && currScreen < SCREEN_END
    ensures r ==> wParam == WM_KEYDOWN || wParam == WM_SYSKEYDOWN
    ensures (nCode == HC_ACTION && (wParam == WM_KEYDOWN || wParam == WM_SYSKEYDOWN)
             && vkCode in HOOK_KEY_CODES && currScreen < SCREEN_END) ==> r
  {
    nCode == HC_ACTION && (wParam == WM_KEYDOWN || wParam == WM_SYSKEYDOWN)
    && vkCode in HOOK_KEY_CODES && currScreen < SCREEN_END
  }

  // ---------------------------------------------------------------------
  // The observer

  class Observer {
    /** The owner as the hooks see it; SCREEN_END while the host owns input. */
    var currScreen: int
    const screenWidth: Int32
    const screenHeight: Int32
    /** The cursor position read by the last hook invocation. */
    var currX: int
    var currY: int
    /** The OS cursor. */
    var cursorX: Int32
    var cursorY: Int32
    const mouseData: MouseCoords

    /** The observer starts with the host owning input and with the cursor
        position read once. */
    constructor (width: Int32, height: Int32, x: Int32, y: Int32)
      ensures currScreen == SCREEN_END
      ensures screenWidth == width && screenHeight == height
      ensures cursorX == x && cursorY == y && currX == x && currY == y
      ensures fresh(mouseData) && mouseData.xDelta == 0 && mouseData.yDelta == 0
    {
      currScreen := SCREEN_END;
      screenWidth, screenHeight := width, height;
      cursorX, cursorY := x, y;
      currX, currY := x, y;
      mouseData := new MouseCoords();
    }

    /** getMousePosition(currX, currY). */
    method ReadCursor()
      modifies this
      ensures currX == cursorX && currY == cursorY
      ensures cursorX == old(cursorX) && cursorY == old(cursorY) && currScreen == old(currScreen)
    {
      currX, currY := cursorX, cursorY;
    }

    /** setMousePosition(x, y). */
    method SetMousePosition(x: Int32, y: Int32)
      modifies this
      ensures cursorX == x && cursorY == y
      ensures currX == old(currX) && currY == old(currY) && currScreen == old(currScreen)
    {
      cursorX, cursorY := x, y;
    }

    /** moveByOffset: the cursor moves to its position plus the offsets,
        with 32-bit wrap-around. */
    method MoveByOffset(offsetX: Int32, offsetY: Int32)
      modifies this
      ensures cursorX == Wrap32(old(cursorX) + offsetX) && cursorY == Wrap32(old(cursorY) + offsetY)
      ensures currX == old(currX) && currY == old(currY) && currScreen == old(currScreen)
    {
      var currentX, currentY := cursorX, cursorY;
      SetMousePosition(Wrap32(currentX + offsetX), Wrap32(currentY + offsetY));
    }

    method IsAtBorderNow() returns (b: bool)
      ensures b == IsAtBorder(currX, currY, screenWidth, screenHeight)
    {
      b := currX == 0 || currX - 1 >= screenWidth || currY == 0 || currY - 1 >= screenHeight;
    }
  }
}
