/**
 * Properties of the input state machine: what one poll cycle requests,
 * how requests accumulate, which keys undo themselves, and what a fresh
 * display starts from.
 */
module InputProperties {
  import opened ViewTransform
  import opened InputMachine

  /** The seek amount a key adds when no Ctrl-click intervenes. */
  function SeekDelta(e: Event): (delta: real)
  {
    match e
    case KeyDown(ArrowLeft) => -1.0
    case KeyDown(ArrowDown) => -10.0
    case KeyDown(PageDown) => -600.0
    case KeyDown(ArrowRight) => 1.0
    case KeyDown(ArrowUp) => 10.0
    case KeyDown(PageUp) => 600.0
    case _ => 0.0
  }

  /** The frame step a key adds. */
  function FrameDelta(e: Event): (delta: int)
  {
    match e
    case KeyDown(KeyA) => 1
    case KeyDown(KeyD) => -1
    case _ => 0
  }

  /** The zoom steps an event adds: one for a wheel notch up or a plus key, minus one for a notch down or a minus key. */
  function ZoomDelta(e: Event): (steps: int)
  {
    match e
    case MouseWheel(wy) => if wy > 0 then 1 else if wy < 0 then -1 else 0
    case KeyDown(Plus) => 1
    case KeyDown(KeypadPlus) => 1
    case KeyDown(Minus) => -1
    case KeyDown(KeypadMinus) => -1
    case _ => 0
  }

  function SeekSum(events: seq<Event>): (sum: real)
    decreases |events|
  {
    if events == [] then 0.0 else SeekSum(events[..|events| - 1]) + SeekDelta(events[|events| - 1])
  }

  function FrameSum(events: seq<Event>): (sum: int)
    decreases |events|
  {
    if events == [] then 0 else FrameSum(events[..|events| - 1]) + FrameDelta(events[|events| - 1])
  }

  function ZoomSum(events: seq<Event>): (sum: int)
    decreases |events|
  {
    if events == [] then 0 else ZoomSum(events[..|events| - 1]) + ZoomDelta(events[|events| - 1])
  }

  /** An absolute-seek request: a left press with Ctrl held. */
  predicate IsCtrlClick(e: Event)
  {
    e.MouseButtonDown? && e.button == LeftButton && e.ctrl
  }

  predicate RequestsQuit(e: Event)
  {
    e == QuitRequested || e == KeyDown(Escape)
  }

  /** One event changes the frame step by its own delta. */
  lemma StepFrameDelta(s: State, g: Geometry, e: Event)
    requires g.Valid()
    ensures Step(s, g, e).commands.frameOffsetDelta == s.commands.frameOffsetDelta + FrameDelta(e)
  {
  }

  /** One event other than a Ctrl-click changes the seek amount by its own delta and leaves the absolute-seek flag. */
  lemma StepSeekDelta(s: State, g: Geometry, e: Event)
    requires g.Valid() && !IsCtrlClick(e)
    ensures Step(s, g, e).commands.seekRelative == s.commands.seekRelative + SeekDelta(e)
    ensures Step(s, g, e).commands.seekFromStart == s.commands.seekFromStart
  {
  }

  /** One event sets quit exactly when it is Escape or a quit signal; it never clears it. */
  lemma StepQuit(s: State, g: Geometry, e: Event)
    requires g.Valid()
    ensures Step(s, g, e).commands.quit == (s.commands.quit || RequestsQuit(e))
  {
  }

  /** One event moves the zoom factor by its own number of steps. */
  lemma StepZoom(s: State, g: Geometry, e: Event)
    requires g.Valid()
    ensures Step(s, g, e).view.zoomFactor == s.view.zoomFactor + ZoomDelta(e) as real * ZoomStep
  {
  }

  /** Every poll cycle starts from neutral commands: with no event queued, no seek and no frame step is requested. */
  lemma PollWithoutEventsIsNeutral(s: State, g: Geometry, pointerX: int, pointerY: int)
    requires g.Valid()
    ensures var c := Poll(s, g, pointerX, pointerY, []).commands;
            c.seekRelative == 0.0 && !c.seekFromStart && c.frameOffsetDelta == 0 && c.quit == s.commands.quit
  {
  }

  /** Frame-step keys add up over one queue: a adds one, d takes one away. */
  lemma {:induction false} FrameStepsAccumulate(s: State, g: Geometry, events: seq<Event>)
    requires g.Valid()
    ensures Run(s, g, events).commands.frameOffsetDelta == s.commands.frameOffsetDelta + FrameSum(events)
    decreases |events|
  {
    if events != [] {
      FrameStepsAccumulate(s, g, events[..|events| - 1]);
      StepFrameDelta(Run(s, g, events[..|events| - 1]), g, events[|events| - 1]);
    }
  }

  /** Seeking keys add up over one queue, as long as no Ctrl-click replaces the amount. */
  lemma {:induction false} SeeksAccumulate(s: State, g: Geometry, events: seq<Event>)
    requires g.Valid()
    requires forall i :: 0 <= i < |events| ==> !IsCtrlClick(events[i])
    ensures Run(s, g, events).commands.seekRelative == s.commands.seekRelative + SeekSum(events)
    ensures Run(s, g, events).commands.seekFromStart == s.commands.seekFromStart
    decreases |events|
  {
    if events != [] {
      SeeksAccumulate(s, g, events[..|events| - 1]);
      StepSeekDelta(Run(s, g, events[..|events| - 1]), g, events[|events| - 1]);
    }
  }

  /**
   * The commands of one poll cycle are those of its own events only, whatever
   * the previous cycle requested: the frame step is the sum of its a/d keys,
   * and without a Ctrl-click the seek is the sum of its arrow and page keys.
   */
  lemma {:induction false} PollCommandsAreSums(s: State, g: Geometry, pointerX: int, pointerY: int, events: seq<Event>)
    requires g.Valid()
    ensures Poll(s, g, pointerX, pointerY, events).commands.frameOffsetDelta == FrameSum(events)
    ensures (forall i :: 0 <= i < |events| ==> !IsCtrlClick(events[i])) ==>
              var c := Poll(s, g, pointerX, pointerY, events).commands;
              c.seekRelative == SeekSum(events) && !c.seekFromStart
  {
    var r := ResetCommands(HoldRefresh(s, pointerX, pointerY));
    FrameStepsAccumulate(r, g, events);
    if forall i :: 0 <= i < |events| ==> !IsCtrlClick(events[i]) {
      SeeksAccumulate(r, g, events);
    }
  }

  /** Dispatching two queues one after the other is dispatching their concatenation. */
  lemma {:induction false} RunAppend(s: State, g: Geometry, first: seq<Event>, second: seq<Event>)
    requires g.Valid()
    ensures Run(s, g, first + second) == Run(Run(s, g, first), g, second)
    decreases |second|
  {
    if second == [] {
      assert first + second == first;
    } else {
      var init := second[..|second| - 1];
      RunAppend(s, g, first, init);
      assert (first + second)[..|first + second| - 1] == first + init;
      assert (first + second)[|first + second| - 1] == second[|second| - 1];
    }
  }

  /**
   * A cycle whose last Ctrl-click is at x: the seek is absolute, to the
   * clicked fraction of the window plus the arrow and page keys after it,
   * whatever came before the click.
   */
  lemma {:induction false} CtrlClickCycle(s: State, g: Geometry, pointerX: int, pointerY: int,
                                          before: seq<Event>, x: int, y: int, after: seq<Event>)
    requires g.Valid()
    requires forall i :: 0 <= i < |after| ==> !IsCtrlClick(after[i])
    ensures var c := Poll(s, g, pointerX, pointerY, before + [MouseButtonDown(LeftButton, x, y, true)] + after).commands;
            c.seekRelative == x as real / g.windowWidth as real + SeekSum(after) && c.seekFromStart
  {
    var r := ResetCommands(HoldRefresh(s, pointerX, pointerY));
    var click := MouseButtonDown(LeftButton, x, y, true);
    RunAppend(r, g, before + [click], after);
    RunAppend(r, g, before, [click]);
    var t := Run(r, g, before + [click]);
    assert t == Step(Run(r, g, before), g, click);
    SeeksAccumulate(t, g, after);
  }

  /** A Ctrl-click requests an absolute seek to the pointer's fraction of the window width and neither starts a drag nor moves the tracked pointer. */
  lemma CtrlClickSeeksFromStart(s: State, g: Geometry, x: int, y: int)
    requires g.Valid()
    ensures var t := Step(s, g, MouseButtonDown(LeftButton, x, y, true));
            && t.commands.seekRelative * g.windowWidth as real == x as real
            && t.commands.seekFromStart
            && t.pointer == s.pointer
            && t.commands.frameOffsetDelta == s.commands.frameOffsetDelta
  {
  }

  /** A left press without Ctrl starts tracking the pointer at the press position and requests nothing. */
  lemma LeftPressStartsDrag(s: State, g: Geometry, x: int, y: int)
    requires g.Valid()
    ensures var t := Step(s, g, MouseButtonDown(LeftButton, x, y, false));
            t.pointer.leftButtonDown && t.pointer.mouseX == x && t.pointer.mouseY == y && t.commands == s.commands
  {
  }

  /** A right press records the pointer and the current centre as the drag origin; releasing the button ends the drag. */
  lemma RightPressAnchorsDrag(s: State, g: Geometry, x: int, y: int)
    requires g.Valid()
    ensures var t := Step(s, g, MouseButtonDown(RightButton, x, y, false));
            && t.pointer.rightButtonDown && t.pointer.rightButtonDownX == x && t.pointer.rightButtonDownY == y
            && t.pointer.anchorX == s.view.centerX && t.pointer.anchorY == s.view.centerY
            && t.view == s.view
            && !Step(t, g, MouseButtonUp(RightButton)).pointer.rightButtonDown
  {
  }

  /** The swap key inverts the side assignment and exchanges the labels; pressing it twice restores every field. */
  lemma SwapTwiceRestores(s: State, g: Geometry)
    requires g.Valid()
    ensures var t := Step(s, g, KeyDown(KeyS));
            t.toggles.swapLeftRight == !s.toggles.swapLeftRight && t.leftText == s.rightText && t.rightText == s.leftText
    ensures Step(Step(s, g, KeyDown(KeyS)), g, KeyDown(KeyS)) == s
  {
  }

  /** Each toggle key flips its own toggle and nothing else; pressed twice it restores the state. */
  lemma TogglesAreInvolutions(s: State, g: Geometry, k: Key)
    requires g.Valid()
    requires IsToggleKey(k)
    ensures Step(Step(s, g, KeyDown(k)), g, KeyDown(k)) == s
    ensures k == Digit1 ==> Step(s, g, KeyDown(k)) == s.(toggles := s.toggles.(showLeft := !s.toggles.showLeft))
    ensures k == Digit2 ==> Step(s, g, KeyDown(k)) == s.(toggles := s.toggles.(showRight := !s.toggles.showRight))
    ensures k == Digit3 ==> Step(s, g, KeyDown(k)) == s.(toggles := s.toggles.(showHud := !s.toggles.showHud))
    ensures k == Digit0 ==> Step(s, g, KeyDown(k)) == s.(toggles := s.toggles.(subtractionMode := !s.toggles.subtractionMode))
    ensures k == Space ==> Step(s, g, KeyDown(k)) == s.(toggles := s.toggles.(play := !s.toggles.play))
  {
  }

  /** The keypad centre key puts the pan centre on the frame midpoint whatever the previous pan, and changes nothing else. */
  lemma Keypad5Recentres(s: State, g: Geometry)
    requires g.Valid()
    ensures Step(s, g, KeyDown(Keypad5)) == s.(view := s.view.(centerX := g.videoWidth / 2, centerY := g.videoHeight / 2))
  {
  }

  /** The pan centre is not clamped to the frame: at scale 1 the keypad moves it left of column 0. */
  lemma PanIsNotClamped(s: State, g: Geometry)
    requires g.Valid() && g.windowWidth >= 20
    requires s.view.centerX == 0 && s.view.zoomFactor == 0.0
    ensures Step(s, g, KeyDown(Keypad4)).view.centerX < 0
  {
    assert PanStep(g.windowWidth, 0.0) == g.windowWidth as real / 20.0 >= 1.0;
  }

  /** Holding the right button with the pointer back where it went down leaves the centre at the anchor. */
  lemma DragWithoutMotionKeepsAnchor(s: State, pointerX: int, pointerY: int)
    requires s.pointer.rightButtonDown
    requires pointerX == s.pointer.rightButtonDownX && pointerY == s.pointer.rightButtonDownY
    ensures var t := HoldRefresh(s, pointerX, pointerY);
            t.view.centerX == s.pointer.anchorX && t.view.centerY == s.pointer.anchorY
  {
    var p := s.pointer;
    assert (p.rightButtonDownX - pointerX) as real / GetZoom(s.view.zoomFactor) == 0.0;
    assert (p.rightButtonDownY - pointerY) as real / GetZoom(s.view.zoomFactor) == 0.0;
    TruncOfInt(p.anchorX);
    TruncOfInt(p.anchorY);
  }

  /** At scale 1 the right-button drag moves the centre opposite to the pointer, pixel for pixel. */
  lemma UnitDragIsExact(s: State, pointerX: int, pointerY: int)
    requires s.pointer.rightButtonDown && s.view.zoomFactor == 0.0
    ensures var t := HoldRefresh(s, pointerX, pointerY);
            t.view.centerX == s.pointer.anchorX + s.pointer.rightButtonDownX - pointerX
            && t.view.centerY == s.pointer.anchorY + s.pointer.rightButtonDownY - pointerY
  {
    var p := s.pointer;
    var dx, dy := p.rightButtonDownX - pointerX, p.rightButtonDownY - pointerY;
    assert p.anchorX as real + dx as real / 1.0 == (p.anchorX + dx) as real;
    assert p.anchorY as real + dy as real / 1.0 == (p.anchorY + dy) as real;
    TruncOfInt(p.anchorX + dx);
    TruncOfInt(p.anchorY + dy);
    var zoom := GetZoom(s.view.zoomFactor);
    assert zoom == 1.0;
    assert HoldRefresh(s, pointerX, pointerY).view
        == View(s.view.zoomFactor, Trunc(p.anchorX as real + dx as real / zoom), Trunc(p.anchorY as real + dy as real / zoom));
  }

  /** A held left button makes the tracked pointer follow the current position; without a held button the hold refresh changes nothing. */
  lemma HoldRefreshTracksPointer(s: State, pointerX: int, pointerY: int)
    ensures s.pointer.leftButtonDown ==>
              HoldRefresh(s, pointerX, pointerY).pointer.mouseX == pointerX
              && HoldRefresh(s, pointerX, pointerY).pointer.mouseY == pointerY
    ensures !s.pointer.leftButtonDown && !s.pointer.rightButtonDown ==> HoldRefresh(s, pointerX, pointerY) == s
  {
  }

  /** A keypad key pans by a twentieth of the window over the scale, along its own axis, to within the pixel the truncation drops. */
  lemma PanAmount(v: View, g: Geometry, key: Key)
    requires g.Valid()
    ensures var w := PanKey(v, g, key);
            var dx, dy := PanStep(g.windowWidth, v.zoomFactor), PanStep(g.windowHeight, v.zoomFactor);
            && (key == Keypad4 ==> -1.0 < w.centerX as real - (v.centerX as real - dx) < 1.0)
            && (key == Keypad6 ==> -1.0 < w.centerX as real - (v.centerX as real + dx) < 1.0)
            && (key == Keypad8 ==> -1.0 < w.centerY as real - (v.centerY as real - dy) < 1.0)
            && (key == Keypad2 ==> -1.0 < w.centerY as real - (v.centerY as real + dy) < 1.0)
  {
  }

  /** With the right button held, the pan centre is the anchor plus the pointer's travel since the press, reversed and divided by the scale, to within the pixel the truncation drops. */
  lemma DragAmount(s: State, pointerX: int, pointerY: int)
    requires s.pointer.rightButtonDown
    ensures var t := HoldRefresh(s, pointerX, pointerY);
            var p, zoom := s.pointer, GetZoom(s.view.zoomFactor);
            && -1.0 < t.view.centerX as real - (p.anchorX as real + (p.rightButtonDownX - pointerX) as real / zoom) < 1.0
            && -1.0 < t.view.centerY as real - (p.anchorY as real + (p.rightButtonDownY - pointerY) as real / zoom) < 1.0
  {
  }

  /** A queue requests quit exactly when it holds Escape or a quit signal, or quit was already requested; quit is never withdrawn. */
  lemma {:induction false} QuitIffRequested(s: State, g: Geometry, events: seq<Event>)
    requires g.Valid()
    ensures Run(s, g, events).commands.quit
        <==> s.commands.quit || exists i :: 0 <= i < |events| && RequestsQuit(events[i])
    decreases |events|
  {
    if events != [] {
      var init := events[..|events| - 1];
      QuitIffRequested(s, g, init);
      StepQuit(Run(s, g, init), g, events[|events| - 1]);
      if exists i :: 0 <= i < |events| && RequestsQuit(events[i]) {
        var i :| 0 <= i < |events| && RequestsQuit(events[i]);
        if i < |init| {
          assert init[i] == events[i];
        }
      }
      if exists i :: 0 <= i < |init| && RequestsQuit(init[i]) {
        var i :| 0 <= i < |init| && RequestsQuit(init[i]);
        assert events[i] == init[i];
      }
    }
  }

  /** The zoom factor moves by one step per wheel notch or plus/minus key, so a zoom in followed by a zoom out restores it. */
  lemma {:induction false} ZoomFactorCountsSteps(s: State, g: Geometry, events: seq<Event>)
    requires g.Valid()
    ensures Run(s, g, events).view.zoomFactor == s.view.zoomFactor + ZoomSum(events) as real * ZoomStep
    decreases |events|
  {
    if events != [] {
      var init := events[..|events| - 1];
      ZoomFactorCountsSteps(s, g, init);
      StepZoom(Run(s, g, init), g, events[|events| - 1]);
    }
  }

  /** A fresh display shows both videos in compare mode with the HUD, plays, has no swap, requests nothing and holds no button. */
  lemma InitialStateIsNeutral(g: Geometry, leftText: Label, rightText: Label)
    ensures var s := Initial(g, leftText, rightText);
            && !s.commands.quit && s.toggles.play && !s.toggles.swapLeftRight
            && s.toggles.showLeft && s.toggles.showRight && s.toggles.showHud && !s.toggles.subtractionMode
            && s.commands.seekRelative == 0.0 && s.commands.frameOffsetDelta == 0 && !s.commands.seekFromStart
            && !s.pointer.leftButtonDown && !s.pointer.rightButtonDown
  {
  }

  /** In a fresh display the pointer sits at the window centre, so the split starts at the video's middle column. */
  lemma InitialSplitAtMiddle(g: Geometry, leftText: Label, rightText: Label)
    requires g.Valid()
    ensures var s := Initial(g, leftText, rightText);
            PointerToVideo(s.pointer.mouseX, g.windowWidth, s.view.centerX, GetZoom(s.view.zoomFactor), g.videoWidth)
            == g.videoWidth / 2
  {
    WindowCentreMapsToPanCentre(g.windowWidth, g.videoWidth / 2, 1.0, g.videoWidth);
  }
}
