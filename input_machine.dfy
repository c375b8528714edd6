/**
 * The input state machine of the display (display.cpp, input; state
 * declared in display.h): the persistent view and pointer state, the
 * per-cycle command fields, and how one poll cycle changes them.
 * SDL_GetMouseState and SDL_GetModState are replaced by the pointer
 * position and Ctrl flag each event carries, and by the pointer position
 * passed to a poll cycle for the button-hold refreshes.
 */
module InputMachine {
  import opened ViewTransform

  /** The zoom step of the mouse wheel and the plus/minus keys. */
  const ZoomStep: real := 0.2

  /** The keypad pan moves the centre by the window size over this divisor, in video pixels. */
  const PanDivisor: real := 20.0

  datatype Button = LeftButton | RightButton | OtherButton

  datatype Key =
    | Escape | Space | Digit1 | Digit2 | Digit3 | Digit0
    | KeyA | KeyD | KeyS
    | ArrowLeft | ArrowDown | PageDown | ArrowRight | ArrowUp | PageUp
    | Plus | KeypadPlus | Minus | KeypadMinus
    | Keypad4 | Keypad6 | Keypad8 | Keypad2 | Keypad5
    | OtherKey

  /** A queued SDL event; a button press carries the pointer position and whether either Ctrl key is held. */
  datatype Event =
    | MouseButtonDown(button: Button, x: int, y: int, ctrl: bool)
    | MouseButtonUp(button: Button)
    | MouseWheel(wheelY: int)
    | KeyDown(key: Key)
    | QuitRequested
    | OtherEvent

  /** A rendered file-name label: a texture handle and its size. */
  datatype Label = Label(texture: nat, width: int, height: int)

  /** The session-fixed sizes the machine reads. */
  datatype Geometry = Geometry(videoWidth: int, videoHeight: int, windowWidth: int, windowHeight: int)
  {
    predicate Valid() { videoWidth >= 0 && videoHeight >= 0 && windowWidth > 0 && windowHeight > 0 }
  }

  /** Zoom factor and pan centre (video pixels). */
  datatype View = View(zoomFactor: real, centerX: int, centerY: int)

  /** The display toggles. */
  datatype Toggles = Toggles(play: bool, swapLeftRight: bool, showLeft: bool, showRight: bool,
                             showHud: bool, subtractionMode: bool)

  /** What the caller reads after a poll: quit (sticky) and the per-cycle seek and frame-step requests. */
  datatype Commands = Commands(quit: bool, seekRelative: real, frameOffsetDelta: int, seekFromStart: bool)

  /** Buttons held, the right-drag origin (pointer and centre) and the tracked pointer (window pixels). */
  datatype Pointer = Pointer(leftButtonDown: bool, rightButtonDown: bool,
                             rightButtonDownX: int, rightButtonDownY: int,
                             anchorX: int, anchorY: int,
                             mouseX: int, mouseY: int)

  /** The fields of a Display that input reads and writes. */
  datatype State = State(view: View, toggles: Toggles, commands: Commands,
                         leftText: Label, rightText: Label, pointer: Pointer)

  /** The state of a freshly constructed display: scale 1, centred, playing, both videos and the HUD shown, neutral commands, pointer at the window centre, no button held. */
  function Initial(g: Geometry, leftText: Label, rightText: Label): (s: State)
    ensures s.view == View(0.0, g.videoWidth / 2, g.videoHeight / 2) && GetZoom(s.view.zoomFactor) == 1.0
    ensures s.pointer.mouseX == g.windowWidth / 2 && s.pointer.mouseY == g.windowHeight / 2
    ensures g.Valid() ==> 0 <= s.view.centerX <= g.videoWidth && 0 <= s.view.centerY <= g.videoHeight
    ensures g.Valid() ==> 0 <= s.pointer.mouseX < g.windowWidth && 0 <= s.pointer.mouseY < g.windowHeight
    ensures s.toggles.play && s.toggles.showLeft && s.toggles.showRight && s.toggles.showHud
    ensures !s.toggles.swapLeftRight && !s.toggles.subtractionMode
    ensures !s.commands.quit && ResetCommands(s) == s
    ensures !s.pointer.leftButtonDown && !s.pointer.rightButtonDown
    ensures s.leftText == leftText && s.rightText == rightText
  {
    State(View(0.0, g.videoWidth / 2, g.videoHeight / 2),
          Toggles(true, false, true, true, true, false),
          Commands(false, 0.0, 0, false),
          leftText, rightText,
          Pointer(false, false, 0, 0, 0, 0, g.windowWidth / 2, g.windowHeight / 2))
  }

  /** The button-hold refreshes at the start of a poll cycle: a held left button tracks the pointer, a held right button pans relative to where it went down. */
  function HoldRefresh(s: State, pointerX: int, pointerY: int): (t: State)
    ensures t.toggles == s.toggles && t.commands == s.commands && t.leftText == s.leftText && t.rightText == s.rightText
    ensures t.view.zoomFactor == s.view.zoomFactor && (!s.pointer.rightButtonDown ==> t.view == s.view)
    ensures t.pointer.(mouseX := s.pointer.mouseX, mouseY := s.pointer.mouseY) == s.pointer
    ensures s.pointer.leftButtonDown ==> t.pointer.mouseX == pointerX && t.pointer.mouseY == pointerY
    ensures !s.pointer.leftButtonDown ==> t.pointer == s.pointer
  {
    var p := s.pointer;
    var s1 := if p.leftButtonDown then s.(pointer := p.(mouseX := pointerX, mouseY := pointerY)) else s;
    if p.rightButtonDown then
      var zoom := GetZoom(s.view.zoomFactor);
      s1.(view := s1.view.(centerX := Trunc(p.anchorX as real + (p.rightButtonDownX - pointerX) as real / zoom),
                           centerY := Trunc(p.anchorY as real + (p.rightButtonDownY - pointerY) as real / zoom)))
    else s1
  }

  /** The per-cycle command fields set back to neutral. */
  function ResetCommands(s: State): (t: State)
    ensures t.(commands := s.commands) == s
    ensures t.commands.quit == s.commands.quit
    ensures t.commands.seekRelative == 0.0 && !t.commands.seekFromStart && t.commands.frameOffsetDelta == 0
  {
    s.(commands := s.commands.(seekRelative := 0.0, seekFromStart := false, frameOffsetDelta := 0))
  }

  function ButtonDown(s: State, g: Geometry, button: Button, x: int, y: int, ctrl: bool): (t: State)
    requires g.Valid()
    ensures t.view == s.view && t.toggles == s.toggles && t.leftText == s.leftText && t.rightText == s.rightText
  {
    if button == LeftButton then
      if ctrl then s.(commands := s.commands.(seekRelative := x as real / g.windowWidth as real, seekFromStart := true))
      else s.(pointer := s.pointer.(leftButtonDown := true, mouseX := x, mouseY := y))
    else if button == RightButton then
      s.(pointer := s.pointer.(rightButtonDown := true, rightButtonDownX := x, rightButtonDownY := y,
                               anchorX := s.view.centerX, anchorY := s.view.centerY))
    else s
  }

  function ButtonUp(s: State, button: Button): (t: State)
    ensures t.(pointer := s.pointer) == s
    ensures t.pointer.(leftButtonDown := s.pointer.leftButtonDown, rightButtonDown := s.pointer.rightButtonDown) == s.pointer
    ensures button == LeftButton ==> !t.pointer.leftButtonDown && t.pointer.rightButtonDown == s.pointer.rightButtonDown
    ensures button == RightButton ==> !t.pointer.rightButtonDown && t.pointer.leftButtonDown == s.pointer.leftButtonDown
    ensures button == OtherButton ==> t == s
  {
    if button == LeftButton then s.(pointer := s.pointer.(leftButtonDown := false))
    else if button == RightButton then s.(pointer := s.pointer.(rightButtonDown := false))
    else s
  }

  function ZoomBy(s: State, delta: real): (t: State)
  {
    s.(view := s.view.(zoomFactor := s.view.zoomFactor + delta))
  }

  function Wheel(s: State, wheelY: int): (t: State)
    ensures t.(view := s.view) == s
    ensures t.view.centerX == s.view.centerX && t.view.centerY == s.view.centerY
    ensures wheelY > 0 ==> t.view.zoomFactor == s.view.zoomFactor + ZoomStep
    ensures wheelY < 0 ==> t.view.zoomFactor == s.view.zoomFactor - ZoomStep
    ensures wheelY == 0 ==> t == s
  {
    if wheelY > 0 then ZoomBy(s, ZoomStep)
    else if wheelY < 0 then ZoomBy(s, -ZoomStep)
    else s
  }

  /** The amount a keypad key moves the pan centre along one axis, in video pixels. */
  function PanStep(windowSize: int, zoomFactor: real): (step: real)
  {
    windowSize as real / GetZoom(zoomFactor) / PanDivisor
  }

  function SeekBy(s: State, delta: real): (t: State)
  {
    s.(commands := s.commands.(seekRelative := s.commands.seekRelative + delta))
  }

  function StepFramesBy(s: State, delta: int): (t: State)
  {
    s.(commands := s.commands.(frameOffsetDelta := s.commands.frameOffsetDelta + delta))
  }

  /** The keypad pan and recentre keys. */
  function PanKey(v: View, g: Geometry, key: Key): (w: View)
    requires g.Valid()
    ensures w.zoomFactor == v.zoomFactor
    ensures !IsPanKey(key) ==> w == v
    ensures key == Keypad4 ==> w.centerX <= v.centerX && w.centerY == v.centerY
    ensures key == Keypad6 ==> w.centerX >= v.centerX && w.centerY == v.centerY
    ensures key == Keypad8 ==> w.centerY <= v.centerY && w.centerX == v.centerX
    ensures key == Keypad2 ==> w.centerY >= v.centerY && w.centerX == v.centerX
    ensures key == Keypad5 ==> w.centerX == g.videoWidth / 2 && w.centerY == g.videoHeight / 2
  {
    match key
    case Keypad4 => v.(centerX := Trunc(v.centerX as real - PanStep(g.windowWidth, v.zoomFactor)))
    case Keypad6 => v.(centerX := Trunc(v.centerX as real + PanStep(g.windowWidth, v.zoomFactor)))
    case Keypad8 => v.(centerY := Trunc(v.centerY as real - PanStep(g.windowHeight, v.zoomFactor)))
    case Keypad2 => v.(centerY := Trunc(v.centerY as real + PanStep(g.windowHeight, v.zoomFactor)))
    case Keypad5 => v.(centerX := g.videoWidth / 2, centerY := g.videoHeight / 2)
    case _ => v
  }

  predicate IsPanKey(key: Key)
  {
    key.Keypad4? || key.Keypad6? || key.Keypad8? || key.Keypad2? || key.Keypad5?
  }

  /** The toggle keys. */
  function ToggleKey(t: Toggles, key: Key): (u: Toggles)
    ensures !IsToggleKey(key) ==> u == t
    ensures key == Space ==> u.play != t.play && u.(play := t.play) == t
    ensures key == Digit1 ==> u.showLeft != t.showLeft && u.(showLeft := t.showLeft) == t
    ensures key == Digit2 ==> u.showRight != t.showRight && u.(showRight := t.showRight) == t
    ensures key == Digit3 ==> u.showHud != t.showHud && u.(showHud := t.showHud) == t
    ensures key == Digit0 ==> u.subtractionMode != t.subtractionMode && u.(subtractionMode := t.subtractionMode) == t
  {
    match key
    case Space => t.(play := !t.play)
    case Digit1 => t.(showLeft := !t.showLeft)
    case Digit2 => t.(showRight := !t.showRight)
    case Digit3 => t.(showHud := !t.showHud)
    case Digit0 => t.(subtractionMode := !t.subtractionMode)
    case _ => t
  }

  predicate IsToggleKey(key: Key)
  {
    key.Space? || key.Digit1? || key.Digit2? || key.Digit3? || key.Digit0?
  }

  /** The quit, frame-step, swap, seek and zoom keys. */
  function CommandKey(s: State, key: Key): (t: State)
    ensures t.pointer == s.pointer
    ensures t.view.centerX == s.view.centerX && t.view.centerY == s.view.centerY
    ensures t.toggles.(swapLeftRight := s.toggles.swapLeftRight) == s.toggles
    ensures t.commands.quit == (s.commands.quit || key == Escape)
    ensures key != KeyS ==> t.toggles == s.toggles && t.leftText == s.leftText && t.rightText == s.rightText
    ensures key == KeyS ==> t.toggles.swapLeftRight != s.toggles.swapLeftRight
                            && t.leftText == s.rightText && t.rightText == s.leftText
  {
    match key
    case Escape => s.(commands := s.commands.(quit := true))
    case KeyA => StepFramesBy(s, 1)
    case KeyD => StepFramesBy(s, -1)
    case KeyS => s.(toggles := s.toggles.(swapLeftRight := !s.toggles.swapLeftRight),
                    leftText := s.rightText, rightText := s.leftText)
    case ArrowLeft => SeekBy(s, -1.0)
    case ArrowDown => SeekBy(s, -10.0)
    case PageDown => SeekBy(s, -600.0)
    case ArrowRight => SeekBy(s, 1.0)
    case ArrowUp => SeekBy(s, 10.0)
    case PageUp => SeekBy(s, 600.0)
    case Plus => ZoomBy(s, ZoomStep)
    case KeypadPlus => ZoomBy(s, ZoomStep)
    case Minus => ZoomBy(s, -ZoomStep)
    case KeypadMinus => ZoomBy(s, -ZoomStep)
    case _ => s
  }

  /** The effect of a key press. */
  function KeyPress(s: State, g: Geometry, key: Key): (t: State)
    requires g.Valid()
    ensures t.pointer == s.pointer
    ensures t.commands.quit == (s.commands.quit || key == Escape)
    ensures IsPanKey(key) ==> t.(view := s.view) == s
    ensures IsToggleKey(key) ==> t.(toggles := s.toggles) == s
  {
    if IsPanKey(key) then s.(view := PanKey(s.view, g, key))
    else if IsToggleKey(key) then s.(toggles := ToggleKey(s.toggles, key))
    else CommandKey(s, key)
  }

  /** The effect of dispatching one event. */
  function Step(s: State, g: Geometry, e: Event): (t: State)
    requires g.Valid()
    ensures s.commands.quit ==> t.commands.quit
    ensures !e.MouseButtonDown? && !e.MouseButtonUp? ==> t.pointer == s.pointer
    ensures !e.KeyDown? ==> t.toggles == s.toggles && t.leftText == s.leftText && t.rightText == s.rightText
    ensures !e.KeyDown? && !e.MouseWheel? ==> t.view == s.view
  {
    match e
    case MouseButtonDown(b, x, y, ctrl) => ButtonDown(s, g, b, x, y, ctrl)
    case MouseButtonUp(b) => ButtonUp(s, b)
    case MouseWheel(wy) => Wheel(s, wy)
    case KeyDown(k) => KeyPress(s, g, k)
    case QuitRequested => s.(commands := s.commands.(quit := true))
    case OtherEvent => s
  }

  /** Dispatching a queue of events in order. */
  function Run(s: State, g: Geometry, events: seq<Event>): (t: State)
    requires g.Valid()
    ensures events == [] ==> t == s
    ensures s.commands.quit ==> t.commands.quit
    decreases |events|
  {
    if events == [] then s else Step(Run(s, g, events[..|events| - 1]), g, events[|events| - 1])
  }

  /** One call of input: the hold refreshes, the command reset, then the queued events. */
  function Poll(s: State, g: Geometry, pointerX: int, pointerY: int, events: seq<Event>): (t: State)
    requires g.Valid()
    ensures s.commands.quit ==> t.commands.quit
    ensures events == [] ==> t.commands == s.commands.(seekRelative := 0.0, seekFromStart := false, frameOffsetDelta := 0)
  {
    Run(ResetCommands(HoldRefresh(s, pointerX, pointerY)), g, events)
  }
}
