/**
 * Everything the frame loop learns from outside: window messages and what
 * Win32MainWindowCallback does with them, the bit fields of a key message's
 * LParam, and the left thumb-stick offsets polled from XInput.
 */
module Input {
  import opened Types

  /** The virtual-key code of F4. */
  const VK_F4: uint32 := 0x73
  /** Number of XInput controller slots polled each frame. */
  const XUSER_MAX_COUNT: nat := 4

  datatype KeyMessageKind = SysKeyDown | SysKeyUp | KeyDown | KeyUp

  /** The window messages the platform layer distinguishes. */
  datatype Message =
    | Size
    | Destroy
    | Close
    | ActivateApp
    | SetCursor
    | Key(kind: KeyMessageKind, vkCode: uint32, lParam: bv32)
    | Paint
    | Quit
    | Other(id: uint32)

  /** Whether the bit of the given power-of-two weight is set, by arithmetic rather than masking. */
  predicate BitOf(x: bv32, weight: bv32)
    requires weight > 0
  {
    (x / weight) % 2 == 1
  }

  /** The key-transition fields of a key message. */
  datatype KeyTransition = KeyTransition(wasDown: bool, isDown: bool)

  /** WasDown and IsDown as the callback reads them from LParam with masks. */
  function DecodeKeyTransition(lParam: bv32): (t: KeyTransition)
    ensures t.wasDown <==> BitOf(lParam, 0x4000_0000)
    ensures t.isDown <==> !BitOf(lParam, 0x8000_0000)
  {
    KeyTransition(lParam & (1 << 30) != 0, lParam & (1 << 31) == 0)
  }

  /** AltKeyWasDown: the context-code bit of LParam. */
  function AltKeyWasDown(lParam: bv32): (b: bool)
    ensures b <==> BitOf(lParam, 0x2000_0000)
  {
    lParam & (1 << 29) != 0
  }

  /** The window messages that ask the application to stop: close, destroy and Alt+F4. */
  predicate RequestsStop(m: Message)
  {
    || m.Destroy?
    || m.Close?
    || (m.Key? && m.vkCode == VK_F4 && BitOf(m.lParam, 0x2000_0000))
  }

  /**
   * Win32MainWindowCallback, as far as it touches GlobalRunning: the new
   * value of the flag after the callback has handled `m`.
   */
  function WindowCallback(running: bool, m: Message): (r: bool)
    ensures r ==> running
    ensures r <==> running && !RequestsStop(m)
  {
    match m
    case Destroy => false
    case Close => false
    case Key(_, vkCode, lParam) =>
      if vkCode == VK_F4 && AltKeyWasDown(lParam) then false else running
    case _ => running
  }

  /** What one message does to GlobalRunning in the PeekMessage loop: WM_QUIT, then the dispatch. */
  function PumpOne(running: bool, m: Message): bool
  {
    WindowCallback(if m.Quit? then false else running, m)
  }

  predicate StopsLoop(m: Message)
  {
    m.Quit? || RequestsStop(m)
  }

  /** GlobalRunning after the message loop has drained `messages` in order. */
  function RunningAfter(running: bool, messages: seq<Message>): bool
    decreases |messages|
  {
    if messages == [] then running
    else RunningAfter(PumpOne(running, messages[0]), messages[1..])
  }

  /** The loop keeps running exactly when it ran before and no message asked it to stop. */
  lemma {:induction false} RunningAfterMessages(running: bool, messages: seq<Message>)
    ensures RunningAfter(running, messages) <==> running && forall i :: 0 <= i < |messages| ==> !StopsLoop(messages[i])
    decreases |messages|
  {
    if messages != [] {
      RunningAfterMessages(PumpOne(running, messages[0]), messages[1..]);
      assert forall i :: 1 <= i < |messages| ==> messages[i] == messages[1..][i - 1];
    }
  }

  /** Draining messages in two batches is draining them all at once. */
  lemma {:induction false} RunningAfterAppend(running: bool, first: seq<Message>, second: seq<Message>)
    ensures RunningAfter(running, first + second) == RunningAfter(RunningAfter(running, first), second)
    decreases |first|
  {
    if first == [] {
      assert first + second == second;
    } else {
      assert (first + second)[0] == first[0];
      assert (first + second)[1..] == first[1..] + second;
      RunningAfterAppend(PumpOne(running, first[0]), first[1..], second);
    }
  }

  /** The left thumb stick of a connected controller. */
  datatype Stick = Stick(x: int16, y: int16)

  /** StickX / 4096 with C's division, which truncates toward zero. */
  function StickOffset(stick: int16): (r: int)
    ensures -8 <= r <= 7
    ensures stick >= 0 ==> 0 <= r && r * 4096 <= stick < (r + 1) * 4096
    ensures stick < 0 ==> r <= 0 && (r - 1) * 4096 < stick <= r * 4096
  {
    var s: int := stick;
    if s >= 0 then s / 4096 else -((-s) / 4096)
  }

  /** Total XOffset change from one poll of all controllers (None: not connected). */
  function SumStickX(controllers: seq<Option<Stick>>): int
  {
    if controllers == [] then 0
    else (match controllers[0] case Some(s) => StickOffset(s.x) case None => 0) + SumStickX(controllers[1..])
  }

  /** Total YOffset change from one poll of all controllers. */
  function SumStickY(controllers: seq<Option<Stick>>): int
  {
    if controllers == [] then 0
    else (match controllers[0] case Some(s) => StickOffset(s.y) case None => 0) + SumStickY(controllers[1..])
  }

  /** One poll moves each offset by at most 8 per controller. */
  lemma {:induction false} StickSumBounds(controllers: seq<Option<Stick>>)
    ensures -8 * |controllers| <= SumStickX(controllers) <= 7 * |controllers|
    ensures -8 * |controllers| <= SumStickY(controllers) <= 7 * |controllers|
  {
    if controllers != [] {
      StickSumBounds(controllers[1..]);
    }
  }
}
