/**
 * The Win32 window (Source/Platform/Windows/Win32Window.cpp,
 * Win32Window.h, Source/Core/Window/Window.h): virtual-key translation,
 * the input state HandleMessage keeps, the close flag, the message pump
 * and the one-time window-class registration.
 *
 * A window message is its code and its two parameters as unsigned bit
 * patterns. The event callbacks are reduced to whether each one is set,
 * and a callback's invocation is returned as the event it receives. The
 * thread's message queue is a parameter of PollEvents; PostQuitMessage
 * sets the thread's quit flag, which PeekMessage turns into WM_QUIT once
 * the queue is empty.
 */
module Windowing {
  import opened Types

  // Window message codes (WinUser.h).
  const WM_DESTROY: nat := 0x0002
  const WM_SIZE: nat := 0x0005
  const WM_CLOSE: nat := 0x0010
  const WM_QUIT: nat := 0x0012
  const WM_KEYDOWN: nat := 0x0100
  const WM_KEYUP: nat := 0x0101
  const WM_MOUSEMOVE: nat := 0x0200
  const WM_LBUTTONDOWN: nat := 0x0201
  const WM_LBUTTONUP: nat := 0x0202
  const WM_RBUTTONDOWN: nat := 0x0204
  const WM_RBUTTONUP: nat := 0x0205
  const WM_MBUTTONDOWN: nat := 0x0207
  const WM_MBUTTONUP: nat := 0x0208
  const WM_MOUSEWHEEL: nat := 0x020A

  // Virtual-key codes (WinUser.h).
  const VK_TAB: nat := 0x09
  const VK_RETURN: nat := 0x0D
  const VK_SHIFT: nat := 0x10
  const VK_CONTROL: nat := 0x11
  const VK_MENU: nat := 0x12
  const VK_ESCAPE: nat := 0x1B
  const VK_SPACE: nat := 0x20
  const VK_LEFT: nat := 0x25
  const VK_UP: nat := 0x26
  const VK_RIGHT: nat := 0x27
  const VK_DOWN: nat := 0x28
  const VK_F1: nat := 0x70
  const VK_F12: nat := 0x7B

  /** enum class KeyCode : uint16, by value. */
  type KeyCode = u16

  const KeyUnknown: KeyCode := 0
  const KeyA: KeyCode := 65
  const KeyZ: KeyCode := 90
  const KeyNum0: KeyCode := 48
  const KeyNum9: KeyCode := 57
  const KeyF1: KeyCode := 112
  const KeyLeft: KeyCode := 37
  const KeyUp: KeyCode := 38
  const KeyRight: KeyCode := 39
  const KeyDown: KeyCode := 40
  const KeyEscape: KeyCode := 27
  const KeyEnter: KeyCode := 13
  const KeySpace: KeyCode := 32
  const KeyTab: KeyCode := 9
  const KeyShift: KeyCode := 16
  const KeyCtrl: KeyCode := 17
  const KeyAlt: KeyCode := 18

  /** enum class MouseButton : uint8. */
  datatype MouseButton = Left | Right | Middle

  function ButtonIndex(b: MouseButton): (i: nat)
    ensures i < 3
  {
    match b
    case Left => 0
    case Right => 1
    case Middle => 2
  }

  /**
   * VirtualKeyToKeyCode: the 23 named virtual keys to their keys, letters
   * and digits to the key with the same value, anything else to Unknown.
   */
  function VirtualKeyToKeyCode(vkey: nat): (k: KeyCode)
    ensures k < 256
    ensures k == vkey || k == KeyUnknown
  {
    if vkey == VK_ESCAPE then KeyEscape
    else if vkey == VK_RETURN then KeyEnter
    else if vkey == VK_SPACE then KeySpace
    else if vkey == VK_TAB then KeyTab
    else if vkey == VK_SHIFT then KeyShift
    else if vkey == VK_CONTROL then KeyCtrl
    else if vkey == VK_MENU then KeyAlt
    else if vkey == VK_LEFT then KeyLeft
    else if vkey == VK_UP then KeyUp
    else if vkey == VK_RIGHT then KeyRight
    else if vkey == VK_DOWN then KeyDown
    else if VK_F1 <= vkey <= VK_F12 then (KeyF1 + (vkey - VK_F1)) as KeyCode
    else if 'A' as nat <= vkey <= 'Z' as nat then vkey as KeyCode
    else if '0' as nat <= vkey <= '9' as nat then vkey as KeyCode
    else KeyUnknown
  }

  /** The virtual keys the window recognises. */
  predicate Recognised(vkey: nat)
  {
    vkey in {VK_TAB, VK_RETURN, VK_SHIFT, VK_CONTROL, VK_MENU, VK_ESCAPE, VK_SPACE} ||
    VK_LEFT <= vkey <= VK_DOWN || VK_F1 <= vkey <= VK_F12 ||
    'A' as nat <= vkey <= 'Z' as nat || '0' as nat <= vkey <= '9' as nat
  }

  /**
   * Every KeyCode the table names has the value of its virtual key, so the
   * translation is the identity on the recognised keys and Unknown
   * elsewhere; every result indexes the 256 key states.
   */
  lemma KeyCodesAreVirtualKeys(vkey: nat)
    ensures VirtualKeyToKeyCode(vkey) == if Recognised(vkey) then vkey else KeyUnknown
    ensures VirtualKeyToKeyCode(vkey) < 256
    ensures Recognised(vkey) <==> VirtualKeyToKeyCode(vkey) != KeyUnknown
  {
  }

  /** The named keys (F-keys in order: F1 is 112, F12 is 123). */
  lemma NamedKeys()
    ensures VirtualKeyToKeyCode(VK_ESCAPE) == KeyEscape && VirtualKeyToKeyCode(VK_RETURN) == KeyEnter
    ensures VirtualKeyToKeyCode(VK_F12) == KeyF1 + 11 && VirtualKeyToKeyCode('A' as nat) == KeyA
    ensures VirtualKeyToKeyCode('Z' as nat) == KeyZ && VirtualKeyToKeyCode('9' as nat) == KeyNum9
  {
  }

  /** LOWORD / HIWORD of a message parameter. */
  function LowWord(p: nat): (w: u16)
  {
    p % 0x1_0000
  }

  function HighWord(p: nat): (w: u16)
  {
    (p / 0x1_0000) % 0x1_0000
  }

  /** (int)(short)w: a 16-bit word read as signed. */
  function SignedWord(w: u16): (v: i32)
    ensures -0x8000 <= v < 0x8000
    ensures v % 0x1_0000 == w
  {
    if w >= 0x8000 then w - 0x1_0000 else w
  }

  /** A window message: its code and its two parameters. */
  datatype Message = Message(msg: nat, wParam: nat, lParam: nat)

  /** What a callback receives. */
  datatype WindowEvent =
    | KeyEvent(key: KeyCode, pressed: bool, repeat: bool)
    | MouseButtonEvent(button: MouseButton, pressed: bool, x: i32, y: i32)
    | MouseMoveEvent(x: i32, y: i32, deltaX: int, deltaY: int)
    | MouseWheelEvent(wheelDelta: i32, x: i32, y: i32)
    | WindowResizeEvent(width: u32, height: u32)
    | WindowCloseEvent

  /** Which callbacks are set. */
  datatype Callbacks = Callbacks(key: bool, mouseButton: bool, mouseMove: bool, mouseWheel: bool,
                                 resize: bool, close: bool)

  /** The window's input state, plus the thread's quit flag. */
  datatype InputState = InputState(
    width: u32,
    height: u32,
    shouldClose: bool,
    keys: seq<bool>,
    buttons: seq<bool>,
    mouseX: i32,
    mouseY: i32,
    lastMouseX: i32,
    lastMouseY: i32,
    quitPosted: bool)

  /** 256 key states and 3 button states, as the fixed arrays hold. */
  predicate WellSized(s: InputState)
  {
    |s.keys| == 256 && |s.buttons| == 3
  }

  /** HandleMessage's return: 0 for a handled message, or DefWindowProc's. */
  datatype Outcome = Handled(fired: seq<WindowEvent>) | Default

  datatype Handling = Handling(state: InputState, outcome: Outcome)

  function Fire(set_: bool, e: WindowEvent): seq<WindowEvent>
  {
    if set_ then [e] else []
  }

  /** The button of a mouse-button message: R-messages Right, M-messages Middle, all others Left. */
  function ButtonOf(msg: nat): MouseButton
  {
    if msg == WM_RBUTTONDOWN || msg == WM_RBUTTONUP then Right
    else if msg == WM_MBUTTONDOWN || msg == WM_MBUTTONUP then Middle
    else Left
  }

  predicate IsButtonMessage(msg: nat)
  {
    msg in {WM_LBUTTONDOWN, WM_LBUTTONUP, WM_RBUTTONDOWN, WM_RBUTTONUP, WM_MBUTTONDOWN, WM_MBUTTONUP}
  }

  /** The messages the window procedure answers itself; every other one goes to DefWindowProcW. */
  predicate HandledMessage(msg: nat)
  {
    msg in {WM_CLOSE, WM_DESTROY, WM_SIZE, WM_KEYDOWN, WM_KEYUP, WM_MOUSEMOVE, WM_MOUSEWHEEL} || IsButtonMessage(msg)
  }

  /**
   * HandleMessage as a function: the new input state and what the window
   * procedure returns and fires. Exactly the handled messages return 0;
   * the others go to the default procedure and change nothing.
   */
  function Process(s: InputState, cb: Callbacks, m: Message): (h: Handling)
    requires WellSized(s)
    ensures WellSized(h.state)
    ensures h.outcome.Handled? <==> HandledMessage(m.msg)
    ensures !HandledMessage(m.msg) ==> h.state == s
  {
    if m.msg == WM_CLOSE then
      Handling(s.(shouldClose := true), Handled(Fire(cb.close, WindowCloseEvent)))
    else if m.msg == WM_DESTROY then
      Handling(s.(shouldClose := true, quitPosted := true), Handled([]))
    else if m.msg == WM_SIZE then
      var w, h := LowWord(m.lParam), HighWord(m.lParam);
      if w != s.width || h != s.height then
        Handling(s.(width := w, height := h), Handled(Fire(cb.resize, WindowResizeEvent(w, h))))
      else Handling(s, Handled([]))
    else if m.msg == WM_KEYDOWN || m.msg == WM_KEYUP then
      var key := VirtualKeyToKeyCode(m.wParam);
      var pressed := m.msg == WM_KEYDOWN;
      var repeat := (m.lParam / 0x4000_0000) % 2 == 1;
      KeyCodesAreVirtualKeys(m.wParam);
      Handling(s.(keys := s.keys[key := pressed]), Handled(Fire(cb.key, KeyEvent(key, pressed, repeat))))
    else if IsButtonMessage(m.msg) then
      var button := ButtonOf(m.msg);
      var pressed := m.msg in {WM_LBUTTONDOWN, WM_RBUTTONDOWN, WM_MBUTTONDOWN};
      var x, y := SignedWord(LowWord(m.lParam)), SignedWord(HighWord(m.lParam));
      Handling(s.(buttons := s.buttons[ButtonIndex(button) := pressed]),
               Handled(Fire(cb.mouseButton, MouseButtonEvent(button, pressed, x, y))))
    else if m.msg == WM_MOUSEMOVE then
      var x, y := SignedWord(LowWord(m.lParam)), SignedWord(HighWord(m.lParam));
      Handling(s.(mouseX := x, mouseY := y, lastMouseX := x, lastMouseY := y),
               Handled(Fire(cb.mouseMove, MouseMoveEvent(x, y, x - s.lastMouseX, y - s.lastMouseY))))
    else if m.msg == WM_MOUSEWHEEL then
      var x, y := SignedWord(LowWord(m.lParam)), SignedWord(HighWord(m.lParam));
      Handling(s, Handled(Fire(cb.mouseWheel, MouseWheelEvent(SignedWord(HighWord(m.wParam)), x, y))))
    else Handling(s, Default)
  }

  /** What PollEvents leaves: the state, the messages still queued, and the events fired in order. */
  datatype Polled = Polled(state: InputState, remaining: seq<Message>, fired: seq<WindowEvent>)

  /**
   * PollEvents: messages are dispatched in order until WM_QUIT arrives,
   * either queued or, once the queue is empty, from the quit flag; WM_QUIT
   * sets the close flag and ends the loop.
   */
  function Poll(s: InputState, cb: Callbacks, queue: seq<Message>): (p: Polled)
    requires WellSized(s)
    ensures WellSized(p.state)
    decreases |queue|
  {
    if queue == [] then
      if s.quitPosted then Polled(s.(shouldClose := true, quitPosted := false), [], []) else Polled(s, [], [])
    else if queue[0].msg == WM_QUIT then
      Polled(s.(shouldClose := true), queue[1..], [])
    else
      var h := Process(s, cb, queue[0]);
      var rest := Poll(h.state, cb, queue[1..]);
      Polled(rest.state, rest.remaining, (if h.outcome.Handled? then h.outcome.fired else []) + rest.fired)
  }

  /** One dispatched message moves its events from the rest of the poll to the events already fired. */
  lemma PollAdvances(p: Polled, fired: seq<WindowEvent>, s: InputState, cb: Callbacks, queue: seq<Message>,
                     h: Handling, fired': seq<WindowEvent>)
    requires WellSized(s) && queue != [] && queue[0].msg != WM_QUIT
    requires h == Process(s, cb, queue[0])
    requires var q := Poll(s, cb, queue); p.state == q.state && p.remaining == q.remaining && p.fired == fired + q.fired
    requires fired' == fired + (if h.outcome.Handled? then h.outcome.fired else [])
    ensures var q := Poll(h.state, cb, queue[1..]);
            p.state == q.state && p.remaining == q.remaining && p.fired == fired' + q.fired
  {
    var q := Poll(h.state, cb, queue[1..]);
    AppendAssoc(fired, if h.outcome.Handled? then h.outcome.fired else [], q.fired);
  }

  /** No message ever clears the close flag; WM_CLOSE and WM_DESTROY set it. */
  lemma CloseFlagIsSticky(s: InputState, cb: Callbacks, m: Message)
    requires WellSized(s)
    ensures WellSized(Process(s, cb, m).state)
    ensures s.shouldClose ==> Process(s, cb, m).state.shouldClose
    ensures m.msg == WM_CLOSE || m.msg == WM_DESTROY ==> Process(s, cb, m).state.shouldClose
    ensures m.msg == WM_DESTROY ==> Process(s, cb, m).state.quitPosted
  {
  }

  /** Polling never clears the close flag, and a WM_QUIT, queued or posted, sets it. */
  lemma {:induction false} PollCloseFlag(s: InputState, cb: Callbacks, queue: seq<Message>)
    requires WellSized(s)
    decreases |queue|
    ensures s.shouldClose ==> Poll(s, cb, queue).state.shouldClose
    ensures (exists i :: 0 <= i < |queue| && queue[i].msg == WM_QUIT) ==> Poll(s, cb, queue).state.shouldClose
    ensures s.quitPosted ==> Poll(s, cb, queue).state.shouldClose
  {
    if queue != [] && queue[0].msg != WM_QUIT {
      var h := Process(s, cb, queue[0]);
      CloseFlagIsSticky(s, cb, queue[0]);
      PollCloseFlag(h.state, cb, queue[1..]);
      if exists i :: 0 <= i < |queue| && queue[i].msg == WM_QUIT {
        var i :| 0 <= i < |queue| && queue[i].msg == WM_QUIT;
        assert queue[1..][i - 1] == queue[i];
      }
    }
  }

  /** The messages after the first WM_QUIT stay queued; with no WM_QUIT the queue is drained. */
  lemma {:induction false} PollStopsAtQuit(s: InputState, cb: Callbacks, queue: seq<Message>, k: nat)
    requires WellSized(s)
    requires k <= |queue| && forall i :: 0 <= i < k ==> queue[i].msg != WM_QUIT
    requires k == |queue| || queue[k].msg == WM_QUIT
    decreases k
    ensures Poll(s, cb, queue).remaining == if k == |queue| then [] else queue[k + 1..]
  {
    if k > 0 {
      PollStopsAtQuit(Process(s, cb, queue[0]).state, cb, queue[1..], k - 1);
      if k < |queue| {
        assert queue[1..][k - 1 + 1..] == queue[k + 1..];
      }
    }
  }

  /** A size message changes the size and fires only when it differs from the stored one. */
  lemma ResizeOnlyOnChange(s: InputState, cb: Callbacks, m: Message)
    requires WellSized(s) && m.msg == WM_SIZE
    ensures var h := Process(s, cb, m);
            h.state.width == LowWord(m.lParam) && h.state.height == HighWord(m.lParam) &&
            (h.outcome.Handled? && h.outcome.fired != [] <==>
               cb.resize && (LowWord(m.lParam) != s.width || HighWord(m.lParam) != s.height)) &&
            (LowWord(m.lParam) == s.width && HighWord(m.lParam) == s.height ==> h.state == s)
  {
  }

  /** Key down presses, key up releases, the translated key's slot only; an unknown key writes slot 0. */
  lemma KeyStates(s: InputState, cb: Callbacks, m: Message)
    requires WellSized(s) && (m.msg == WM_KEYDOWN || m.msg == WM_KEYUP)
    ensures var h := Process(s, cb, m);
            var key := VirtualKeyToKeyCode(m.wParam);
            key < 256 &&
            h.state.keys[key] == (m.msg == WM_KEYDOWN) &&
            (forall k :: 0 <= k < 256 && k != key ==> h.state.keys[k] == s.keys[k]) &&
            (!Recognised(m.wParam) ==> h.state.keys[0] == (m.msg == WM_KEYDOWN))
  {
    KeyCodesAreVirtualKeys(m.wParam);
  }

  /** Mouse buttons: R-messages Right, M-messages Middle, others Left; pressed exactly on a DOWN message. */
  lemma MouseButtonStates(s: InputState, cb: Callbacks, m: Message)
    requires WellSized(s) && IsButtonMessage(m.msg)
    ensures var h := Process(s, cb, m);
            var b := ButtonOf(m.msg);
            (b == Right <==> m.msg == WM_RBUTTONDOWN || m.msg == WM_RBUTTONUP) &&
            (b == Middle <==> m.msg == WM_MBUTTONDOWN || m.msg == WM_MBUTTONUP) &&
            h.state.buttons[ButtonIndex(b)] == (m.msg in {WM_LBUTTONDOWN, WM_RBUTTONDOWN, WM_MBUTTONDOWN}) &&
            forall i :: 0 <= i < 3 && i != ButtonIndex(b) ==> h.state.buttons[i] == s.buttons[i]
  {
  }

  /** A move reports the change from the last position, which then becomes the new position. */
  lemma MouseMoveDelta(s: InputState, cb: Callbacks, m: Message)
    requires WellSized(s) && m.msg == WM_MOUSEMOVE && cb.mouseMove
    ensures var h := Process(s, cb, m);
            var e := h.outcome.fired[0];
            h.outcome.Handled? && |h.outcome.fired| == 1 &&
            e.deltaX == e.x - s.lastMouseX && e.deltaY == e.y - s.lastMouseY &&
            h.state.lastMouseX == e.x == h.state.mouseX && h.state.lastMouseY == e.y == h.state.mouseY &&
            e.x % 0x1_0000 == LowWord(m.lParam) && e.y % 0x1_0000 == HighWord(m.lParam)
  {
  }

  /** The process-wide window-class registration flag. */
  class WindowClassRegistry {
    var registered: bool
    /** How many times RegisterClassExW succeeded. */
    var registrations: nat

    constructor ()
      ensures !registered && registrations == 0
    {
      registered := false;
      registrations := 0;
    }

    ghost predicate Valid()
      reads this
    {
      registrations == if registered then 1 else 0
    }

    /**
     * RegisterWindowClass: only the first successful call registers; a
     * failed RegisterClassExW throws and leaves the flag unset.
     */
    method Register(registerOk: bool) returns (ok: bool)
      requires Valid()
      modifies this
      ensures Valid() && registrations <= 1
      ensures old(registered) ==> ok && registered && registrations == old(registrations)
      ensures !old(registered) ==> ok == registerOk && registered == registerOk
    {
      if registered {
        return true;
      }
      if !registerOk {
        return false;
      }
      registrations := registrations + 1;
      registered := true;
      ok := true;
    }
  }

  /** Win32Window: the window handle's presence, the size, the close flag and the input state. */
  class Win32Window {
    var hasWindow: bool
    var width: u32
    var height: u32
    var shouldClose: bool
    const keyStates: array<bool>
    const mouseButtonStates: array<bool>
    var mouseX: i32
    var mouseY: i32
    var lastMouseX: i32
    var lastMouseY: i32
    var callbacks: Callbacks
    /** The thread's quit flag, set by PostQuitMessage. */
    var quitPosted: bool

    ghost predicate Valid()
      reads this
    {
      keyStates.Length == 256 && mouseButtonStates.Length == 3 && keyStates != mouseButtonStates
    }

    function State(): (s: InputState)
      reads this, keyStates, mouseButtonStates
    {
      InputState(width, height, shouldClose, keyStates[..], mouseButtonStates[..],
                 mouseX, mouseY, lastMouseX, lastMouseY, quitPosted)
    }

    /** Win32Window(): no window, size 0x0, not closing, every key and button released, no callbacks. */
    constructor ()
      ensures Valid() && !hasWindow && width == 0 && height == 0 && !shouldClose && !quitPosted
      ensures forall k :: 0 <= k < 256 ==> !keyStates[k]
      ensures forall b :: 0 <= b < 3 ==> !mouseButtonStates[b]
      ensures mouseX == 0 && mouseY == 0 && lastMouseX == 0 && lastMouseY == 0
      ensures callbacks == Callbacks(false, false, false, false, false, false)
    {
      hasWindow := false;
      width, height := 0, 0;
      shouldClose := false;
      keyStates := new bool[256](_ => false);
      mouseButtonStates := new bool[3](_ => false);
      mouseX, mouseY, lastMouseX, lastMouseY := 0, 0, 0, 0;
      callbacks := Callbacks(false, false, false, false, false, false);
      quitPosted := false;
    }

    /**
     * Create: registers the class once, then creates the window; on success
     * the size is the description's. Any failure returns false; a failed
     * window creation after registration leaves no window handle.
     */
    method Create(registry: WindowClassRegistry, descWidth: u32, descHeight: u32, registerOk: bool, createOk: bool)
      returns (ok: bool)
      requires registry.Valid()
      modifies this, registry
      ensures registry.Valid() && registry.registrations <= 1
      ensures ok <==> (old(registry.registered) || registerOk) && createOk
      ensures ok ==> hasWindow && width == descWidth && height == descHeight
      ensures !ok ==> width == old(width) && height == old(height)
      ensures (old(registry.registered) || registerOk) && !createOk ==> !hasWindow
      ensures !(old(registry.registered) || registerOk) ==> hasWindow == old(hasWindow)
      ensures shouldClose == old(shouldClose)
    {
      var registeredOk := registry.Register(registerOk);
      if !registeredOk {
        return false;
      }
      if !createOk {
        hasWindow := false;
        return false;
      }
      hasWindow := true;
      width := descWidth;
      height := descHeight;
      ok := true;
    }

    /**
     * Destroy: DestroyWindow sends WM_DESTROY to the window procedure before it
     * returns, so a live window is closed and the quit message posted, exactly
     * as HandleMessage handles WM_DESTROY; without a window nothing happens.
     */
    method Destroy()
      requires Valid()
      modifies this`hasWindow, this`shouldClose, this`quitPosted
      ensures !hasWindow
      ensures old(hasWindow) ==> shouldClose && quitPosted
      ensures old(hasWindow) ==> State() == Process(old(State()), callbacks, Message(WM_DESTROY, 0, 0)).state
      ensures !old(hasWindow) ==> shouldClose == old(shouldClose) && quitPosted == old(quitPosted)
    {
      if hasWindow {
        shouldClose, quitPosted := true, true;
        hasWindow := false;
      }
    }

    /** IsKeyPressed: the key's slot (every KeyCode the window produces is below 256). */
    function IsKeyPressed(key: KeyCode): (pressed: bool)
      requires Valid() && key < 256
      reads this, keyStates
      ensures pressed == State().keys[key]
    {
      keyStates[key]
    }

    /** IsMouseButtonPressed: the button's slot of the input state. */
    function IsMouseButtonPressed(b: MouseButton): (pressed: bool)
      requires Valid()
      reads this, mouseButtonStates
      ensures pressed == State().buttons[ButtonIndex(b)]
    {
      mouseButtonStates[ButtonIndex(b)]
    }

    /** HandleMessage: the input state Handle gives, and its outcome. */
    /** The WM_KEYDOWN and WM_KEYUP case: the key's state and a key event. */
    method HandleKey(m: Message) returns (outcome: Outcome)
      requires Valid() && (m.msg == WM_KEYDOWN || m.msg == WM_KEYUP)
      modifies keyStates
      ensures Valid()
      ensures State() == Process(old(State()), callbacks, m).state
      ensures outcome == Process(old(State()), callbacks, m).outcome
    {
      var key := VirtualKeyToKeyCode(m.wParam);
      var pressed := m.msg == WM_KEYDOWN;
      var repeat := (m.lParam / 0x4000_0000) % 2 == 1;
      KeyCodesAreVirtualKeys(m.wParam);
      keyStates[key] := pressed;
      return Handled(Fire(callbacks.key, KeyEvent(key, pressed, repeat)));
    }

    /** The mouse button cases: the button's state and a button event at the cursor. */
    method HandleButton(m: Message) returns (outcome: Outcome)
      requires Valid() && IsButtonMessage(m.msg)
      modifies mouseButtonStates
      ensures Valid()
      ensures State() == Process(old(State()), callbacks, m).state
      ensures outcome == Process(old(State()), callbacks, m).outcome
    {
      var button := Left;
      if m.msg == WM_RBUTTONDOWN || m.msg == WM_RBUTTONUP {
        button := Right;
      } else if m.msg == WM_MBUTTONDOWN || m.msg == WM_MBUTTONUP {
        button := Middle;
      }
      var pressed := m.msg == WM_LBUTTONDOWN || m.msg == WM_RBUTTONDOWN || m.msg == WM_MBUTTONDOWN;
      var x, y := SignedWord(LowWord(m.lParam)), SignedWord(HighWord(m.lParam));
      mouseButtonStates[ButtonIndex(button)] := pressed;
      return Handled(Fire(callbacks.mouseButton, MouseButtonEvent(button, pressed, x, y)));
    }

    method HandleMessage(m: Message) returns (outcome: Outcome)
      requires Valid()
      modifies this, keyStates, mouseButtonStates
      ensures Valid()
      ensures State() == Process(old(State()), old(callbacks), m).state
      ensures outcome == Process(old(State()), old(callbacks), m).outcome
      ensures callbacks == old(callbacks) && hasWindow == old(hasWindow)
    {
      if m.msg == WM_CLOSE {
        shouldClose := true;
        return Handled(Fire(callbacks.close, WindowCloseEvent));
      } else if m.msg == WM_DESTROY {
        shouldClose := true;
        quitPosted := true;
        return Handled([]);
      } else if m.msg == WM_SIZE {
        var w, h := LowWord(m.lParam), HighWord(m.lParam);
        if w != width || h != height {
          width, height := w, h;
          return Handled(Fire(callbacks.resize, WindowResizeEvent(w, h)));
        }
        return Handled([]);
      } else if m.msg == WM_KEYDOWN || m.msg == WM_KEYUP {
        outcome := HandleKey(m);
        return;
      } else if IsButtonMessage(m.msg) {
        outcome := HandleButton(m);
        return;
      } else if m.msg == WM_MOUSEMOVE {
        var x, y := SignedWord(LowWord(m.lParam)), SignedWord(HighWord(m.lParam));
        var deltaX, deltaY := x - lastMouseX, y - lastMouseY;
        mouseX, mouseY := x, y;
        outcome := Handled(Fire(callbacks.mouseMove, MouseMoveEvent(x, y, deltaX, deltaY)));
        lastMouseX, lastMouseY := x, y;
        return;
      } else if m.msg == WM_MOUSEWHEEL {
        var x, y := SignedWord(LowWord(m.lParam)), SignedWord(HighWord(m.lParam));
        return Handled(Fire(callbacks.mouseWheel, MouseWheelEvent(SignedWord(HighWord(m.wParam)), x, y)));
      }
      return Default;
    }

    /** PollEvents over the queued messages: the state, the rest of the queue and the events Poll gives. */
    method PollEvents(queue: seq<Message>) returns (fired: seq<WindowEvent>, remaining: seq<Message>)
      requires Valid()
      modifies this, keyStates, mouseButtonStates
      ensures Valid()
      ensures var p := Poll(old(State()), old(callbacks), queue);
              State() == p.state && remaining == p.remaining && fired == p.fired
    {
      var pending := queue;
      fired := [];
      while true
        invariant Valid() && callbacks == old(callbacks)
        invariant var p, q := Poll(old(State()), old(callbacks), queue), Poll(State(), callbacks, pending);
                  p.state == q.state && p.remaining == q.remaining && p.fired == fired + q.fired
        decreases |pending|
      {
        if pending == [] {
          if quitPosted {
            quitPosted := false;
            shouldClose := true;
          }
          return fired, [];
        }
        var m := pending[0];
        ghost var before, queued, s := fired, pending, State();
        pending := pending[1..];
        if m.msg == WM_QUIT {
          shouldClose := true;
          return fired, pending;
        }
        var outcome := HandleMessage(m);
        if outcome.Handled? {
          fired := fired + outcome.fired;
        }
        PollAdvances(Poll(old(State()), old(callbacks), queue), before, s, callbacks, queued,
                     Process(s, callbacks, m), fired);
      }
    }
  }
}
