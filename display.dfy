/**
 * The Display object (display.h, display.cpp) with the fields that the
 * comparison engine reads and writes. SDL and TTF are abstracted away:
 * window and label sizes are constructor parameters, texture uploads and
 * the zoomed blit are returned as values, and the pointer position and
 * modifier state come with each event.
 *
 * The member variables are kept in six record-valued fields grouped by
 * role (the InputMachine datatypes): view holds zoom_factor_ and
 * window_center_pixel_x_/y_; toggles the play, swap and show flags and
 * subtraction_mode_; commands quit_, seek_relative_, frame_offset_delta_
 * and seek_from_start_; leftText/rightText the file-name label textures
 * and their sizes; pointer the button flags, the right-drag origin and
 * anchor, and mouse_x/mouse_y.
 */
module DisplayModel {
  import opened Pixels
  import opened Planes
  import opened ViewTransform
  import opened Compositor
  import opened DifferenceEngine
  import opened InputMachine

  datatype Option<T> = None | Some(value: T)

  class Display {
    const videoWidth: nat
    const videoHeight: nat
    const windowWidth: int
    const windowHeight: int

    var view: View
    var toggles: Toggles
    var commands: Commands
    var leftText: Label
    var rightText: Label
    var pointer: Pointer

    /** The diff buffer, owned by the display: video_width * video_height RGB pixels, packed. */
    const diffBuffer: array<byte>

    /** The message whose rendered texture is held for the fading overlay; None until the first non-empty message. */
    var heldErrorMessage: Option<string>

    ghost predicate Valid()
    {
      diffBuffer.Length == videoWidth * videoHeight * 3 && windowWidth > 0 && windowHeight > 0
    }

    ghost function Geo(): Geometry
    {
      Geometry(videoWidth, videoHeight, windowWidth, windowHeight)
    }

    /** The abstract state of the input machine held in this object's fields. */
    ghost function Model(): State
      reads this
    {
      State(view, toggles, commands, leftText, rightText, pointer)
    }

    /** A display for width x height videos in a window of the given size, with the two file-name labels already rendered. */
    constructor (width: nat, height: nat, windowWidth: int, windowHeight: int, leftText: Label, rightText: Label)
      requires windowWidth > 0 && windowHeight > 0
      ensures Valid() && fresh(diffBuffer)
      ensures videoWidth == width && videoHeight == height
      ensures this.windowWidth == windowWidth && this.windowHeight == windowHeight
      ensures Model() == Initial(Geo(), leftText, rightText)
      ensures heldErrorMessage == None
    {
      videoWidth, videoHeight := width, height;
      this.windowWidth, this.windowHeight := windowWidth, windowHeight;
      view := View(0.0, width / 2, height / 2);
      toggles := Toggles(true, false, true, true, true, false);
      commands := Commands(false, 0.0, 0, false);
      this.leftText, this.rightText := leftText, rightText;
      heldErrorMessage := None;
      diffBuffer := new byte[width * height * 3];
      pointer := Pointer(false, false, 0, 0, 0, 0, windowWidth / 2, windowHeight / 2);
    }

    /**
     * Recomputes the diff buffer from column splitX to the right edge, row by
     * row, reading each frame with its own pitch; the two frames are only read.
     */
    method UpdateDifference(left: array<byte>, pitchLeft: nat, right: array<byte>, pitchRight: nat, splitX: int)
      requires Valid()
      requires 0 <= splitX <= videoWidth
      requires SourcesFit(left[..], pitchLeft, right[..], pitchRight, videoWidth, videoHeight)
      requires left != diffBuffer && right != diffBuffer
      modifies diffBuffer
      ensures DiffUpdated(old(diffBuffer[..]), diffBuffer[..], left[..], pitchLeft, right[..], pitchRight,
                          videoWidth, videoHeight, splitX)
    {
      ghost var before := diffBuffer[..];
      var pitchDiff := videoWidth * 3;
      // Byte offset of the red channel of the pixel at splitX in the current row; green and blue follow it.
      var pLeft, pRight, pDiff := splitX * 3, splitX * 3, splitX * 3;
      var y := 0;
      while y < videoHeight
        invariant 0 <= y <= videoHeight
        invariant pLeft == y * pitchLeft + splitX * 3
        invariant pRight == y * pitchRight + splitX * 3
        invariant pDiff == y * pitchDiff + splitX * 3
        invariant PartlyUpdated(before, diffBuffer[..], left[..], pitchLeft, right[..], pitchRight,
                                videoWidth, videoHeight, splitX, y, 0)
      {
        DifferenceRow(left, pitchLeft, pLeft, right, pitchRight, pRight, pDiff, splitX, y, before);
        RowDone(before, diffBuffer[..], left[..], pitchLeft, right[..], pitchRight, videoWidth, videoHeight, splitX, y);
        pLeft, pRight, pDiff := pLeft + pitchLeft, pRight + pitchRight, pDiff + pitchDiff;
        y := y + 1;
      }
    }

    /** The inner loop of UpdateDifference: row y from column splitX to the right edge. */
    method DifferenceRow(left: array<byte>, pitchLeft: nat, pLeft: int, right: array<byte>, pitchRight: nat, pRight: int,
                         pDiff: int, splitX: int, y: int, ghost before: seq<byte>)
      requires Valid()
      requires 0 <= splitX <= videoWidth && 0 <= y < videoHeight
      requires left != diffBuffer && right != diffBuffer
      requires pLeft == y * pitchLeft + splitX * 3
      requires pRight == y * pitchRight + splitX * 3
      requires pDiff == y * (videoWidth * 3) + splitX * 3
      requires PartlyUpdated(before, diffBuffer[..], left[..], pitchLeft, right[..], pitchRight,
                             videoWidth, videoHeight, splitX, y, 0)
      modifies diffBuffer
      ensures PartlyUpdated(before, diffBuffer[..], left[..], pitchLeft, right[..], pitchRight,
                            videoWidth, videoHeight, splitX, y, videoWidth - splitX)
    {
      var x := 0;
      while x < videoWidth - splitX
        invariant 0 <= x <= videoWidth - splitX
        invariant PartlyUpdated(before, diffBuffer[..], left[..], pitchLeft, right[..], pitchRight,
                                videoWidth, videoHeight, splitX, y, x)
      {
        ghost var current := diffBuffer[..];
        OffsetInPlane(left.Length, pitchLeft, videoWidth, videoHeight, y, splitX + x, 0);
        OffsetInPlane(left.Length, pitchLeft, videoWidth, videoHeight, y, splitX + x, 2);
        OffsetInPlane(right.Length, pitchRight, videoWidth, videoHeight, y, splitX + x, 0);
        OffsetInPlane(right.Length, pitchRight, videoWidth, videoHeight, y, splitX + x, 2);
        PackedPlaneFits(videoWidth, videoHeight);
        OffsetInPlane(diffBuffer.Length, videoWidth * 3, videoWidth, videoHeight, y, splitX + x, 0);
        OffsetInPlane(diffBuffer.Length, videoWidth * 3, videoWidth, videoHeight, y, splitX + x, 2);

        var l0: int, l1: int, l2: int := left[pLeft + x * 3], left[pLeft + 1 + x * 3], left[pLeft + 2 + x * 3];
        var r0: int, r1: int, r2: int := right[pRight + x * 3], right[pRight + 1 + x * 3], right[pRight + 2 + x * 3];
        var d0 := Abs(l0 - r0) * Amplification;
        var d1 := Abs(l1 - r1) * Amplification;
        var d2 := Abs(l2 - r2) * Amplification;
        diffBuffer[pDiff + x * 3] := ClampIntToByte(d0);
        diffBuffer[pDiff + 1 + x * 3] := ClampIntToByte(d1);
        diffBuffer[pDiff + 2 + x * 3] := ClampIntToByte(d2);

        WritePixel(before, current, left[..], pitchLeft, right[..], pitchRight, videoWidth, videoHeight, splitX, y, x);
        assert diffBuffer[..] == WriteDiffPixel(current, left[..], pitchLeft, right[..], pitchRight,
                                                videoWidth, videoHeight, y, splitX + x);
        x := x + 1;
      }
    }

    /** The display scale for the current zoom factor. */
    function GetZoom(): (scale: real)
      reads this
      ensures scale > 0.0 && (scale >= 1.0 <==> view.zoomFactor >= 0.0)
    {
      ViewTransform.GetZoom(view.zoomFactor)
    }

    /**
     * Composes one frame: re-uploads the visible parts of the two frames (or
     * of the freshly computed diff buffer), returns those uploads and the
     * zoomed blit, and takes over a new error message for the overlay.
     */
    method Refresh(left: array<byte>, pitchLeft: nat, right: array<byte>, pitchRight: nat, errorMessage: string)
      returns (updates: seq<TextureUpdate>, blit: Option<(Rect, Rect)>, overlay: Option<string>)
      requires Valid()
      requires SourcesFit(left[..], pitchLeft, right[..], pitchRight, videoWidth, videoHeight)
      requires left != diffBuffer && right != diffBuffer
      modifies diffBuffer, this`heldErrorMessage
      ensures var zoom := ViewTransform.GetZoom(view.zoomFactor);
              var t := toggles;
              var split := SplitX(t.showLeft, t.showRight,
                                  PointerToVideo(pointer.mouseX, windowWidth, view.centerX, zoom, videoWidth), videoWidth);
              var src := SourceRect(view.centerX, view.centerY, zoom, windowWidth, windowHeight, videoWidth, videoHeight);
              && (t.showLeft || t.showRight ==>
                    && updates == UpdatePlan(t.showLeft, t.showRight, t.subtractionMode, split, videoWidth, videoHeight,
                                             pitchLeft, pitchRight)
                    && blit == Some((src, DestRect(src, view.centerX, view.centerY, zoom, windowWidth, windowHeight))))
              && (!(t.showLeft || t.showRight) ==> updates == [] && blit == None)
              && (if (t.showLeft || t.showRight) && RightShown(t.showRight, split, videoWidth) && t.subtractionMode
                  then DiffUpdated(old(diffBuffer[..]), diffBuffer[..], left[..], pitchLeft, right[..], pitchRight,
                                   videoWidth, videoHeight, split)
                  else diffBuffer[..] == old(diffBuffer[..]))
      ensures heldErrorMessage == if errorMessage != [] then Some(errorMessage) else old(heldErrorMessage)
      ensures overlay == heldErrorMessage
    {
      var compareMode := toggles.showLeft && toggles.showRight;
      var zoom := GetZoom();
      var mouseVideoX := PointerToVideo(pointer.mouseX, windowWidth, view.centerX, zoom, videoWidth);
      // The source computes the pointer's video row as well but never uses it.
      var mouseVideoY := PointerToVideo(pointer.mouseY, windowHeight, view.centerY, zoom, videoHeight);

      updates, blit := [], None;
      if toggles.showLeft || toggles.showRight {
        var splitX := if compareMode then mouseVideoX else if toggles.showLeft then videoWidth else 0;
        if toggles.showLeft && splitX > 0 {
          updates := updates + [LeftUpdate(splitX, videoHeight, pitchLeft)];
        }
        if toggles.showRight && splitX < videoWidth {
          if toggles.subtractionMode {
            UpdateDifference(left, pitchLeft, right, pitchRight, splitX);
          }
          updates := updates + [RightUpdate(splitX, videoWidth, videoHeight, toggles.subtractionMode, pitchRight)];
        }
        var src := SourceRect(view.centerX, view.centerY, zoom, windowWidth, windowHeight, videoWidth, videoHeight);
        blit := Some((src, DestRect(src, view.centerX, view.centerY, zoom, windowWidth, windowHeight)));
      }

      if errorMessage != [] {
        heldErrorMessage := Some(errorMessage);
      }
      overlay := heldErrorMessage;
    }

    /**
     * One poll cycle: the button-hold refreshes from the current pointer
     * position, the reset of the per-cycle commands, then every queued event
     * in order.
     */
    method Input(pointerX: int, pointerY: int, events: seq<Event>)
      requires Valid()
      modifies this`view, this`toggles, this`commands, this`leftText, this`rightText, this`pointer
      ensures Model() == Poll(old(Model()), Geo(), pointerX, pointerY, events)
    {
      RefreshHeldButtons(pointerX, pointerY);
      commands := commands.(seekRelative := 0.0, seekFromStart := false, frameOffsetDelta := 0);

      ghost var start := Model();
      assert start == ResetCommands(HoldRefresh(old(Model()), pointerX, pointerY));
      var i := 0;
      while i < |events|
        invariant 0 <= i <= |events|
        invariant Model() == Run(start, Geo(), events[..i])
      {
        HandleEvent(events[i]);
        assert events[..i + 1][..i] == events[..i];
        assert Run(start, Geo(), events[..i + 1]) == Step(Run(start, Geo(), events[..i]), Geo(), events[i]);
        i := i + 1;
      }
      assert events[..|events|] == events;
    }

    /** The button-hold refreshes at the start of input: a held left button tracks the pointer, a held right button drags the pan centre. */
    method RefreshHeldButtons(pointerX: int, pointerY: int)
      requires Valid()
      modifies this`view, this`pointer
      ensures Model() == HoldRefresh(old(Model()), pointerX, pointerY)
    {
      if pointer.leftButtonDown {
        pointer := pointer.(mouseX := pointerX, mouseY := pointerY);
      }
      if pointer.rightButtonDown {
        var zoom := GetZoom();
        view := view.(centerX := Trunc(pointer.anchorX as real + (pointer.rightButtonDownX - pointerX) as real / zoom),
                      centerY := Trunc(pointer.anchorY as real + (pointer.rightButtonDownY - pointerY) as real / zoom));
      }
    }

    /** Dispatches one queued event, as the switch in input does. */
    method HandleEvent(e: Event)
      requires Valid()
      modifies this`view, this`toggles, this`commands, this`leftText, this`rightText, this`pointer
      ensures Model() == Step(old(Model()), Geo(), e)
    {
      match e
      case MouseButtonDown(button, x, y, ctrl) =>
        if button == LeftButton {
          if ctrl {
            commands := commands.(seekRelative := x as real / windowWidth as real, seekFromStart := true);
          } else {
            pointer := pointer.(leftButtonDown := true, mouseX := x, mouseY := y);
          }
        }
        if button == RightButton {
          pointer := pointer.(rightButtonDown := true, rightButtonDownX := x, rightButtonDownY := y,
                              anchorX := view.centerX, anchorY := view.centerY);
        }
      case MouseButtonUp(button) =>
        if button == LeftButton {
          pointer := pointer.(leftButtonDown := false);
        }
        if button == RightButton {
          pointer := pointer.(rightButtonDown := false);
        }
      case MouseWheel(wheelY) =>
        if wheelY > 0 {
          view := view.(zoomFactor := view.zoomFactor + ZoomStep);
        } else if wheelY < 0 {
          view := view.(zoomFactor := view.zoomFactor - ZoomStep);
        }
      case KeyDown(key) =>
        HandleKey(key);
      case QuitRequested =>
        commands := commands.(quit := true);
      case OtherEvent =>
    }

    /** The key-down branch of the switch in input. */
    method HandleKey(key: Key)
      requires Valid()
      modifies this`view, this`toggles, this`commands, this`leftText, this`rightText
      ensures Model() == KeyPress(old(Model()), Geo(), key)
    {
      if IsPanKey(key) {
        HandlePanKey(key);
      } else if IsToggleKey(key) {
        HandleToggleKey(key);
      } else {
        HandleCommandKey(key);
      }
    }

    /** The keypad keys: pan by a twentieth of the window in video pixels, or recentre. */
    method HandlePanKey(key: Key)
      requires Valid() && IsPanKey(key)
      modifies this`view
      ensures Model() == KeyPress(old(Model()), Geo(), key)
    {
      match key
      case Keypad4 => view := view.(centerX := Trunc(view.centerX as real - PanStep(windowWidth, view.zoomFactor)));
      case Keypad6 => view := view.(centerX := Trunc(view.centerX as real + PanStep(windowWidth, view.zoomFactor)));
      case Keypad8 => view := view.(centerY := Trunc(view.centerY as real - PanStep(windowHeight, view.zoomFactor)));
      case Keypad2 => view := view.(centerY := Trunc(view.centerY as real + PanStep(windowHeight, view.zoomFactor)));
      case Keypad5 => view := view.(centerX := videoWidth / 2, centerY := videoHeight / 2);
    }

    method HandleToggleKey(key: Key)
      requires Valid() && IsToggleKey(key)
      modifies this`toggles
      ensures Model() == KeyPress(old(Model()), Geo(), key)
    {
      match key
      case Space => toggles := toggles.(play := !toggles.play);
      case Digit1 => toggles := toggles.(showLeft := !toggles.showLeft);
      case Digit2 => toggles := toggles.(showRight := !toggles.showRight);
      case Digit3 => toggles := toggles.(showHud := !toggles.showHud);
      case Digit0 => toggles := toggles.(subtractionMode := !toggles.subtractionMode);
    }

    /** The quit, frame-step, swap, seek and zoom keys. */
    method HandleCommandKey(key: Key)
      requires Valid() && !IsPanKey(key) && !IsToggleKey(key)
      modifies this`view, this`toggles, this`commands, this`leftText, this`rightText
      ensures Model() == KeyPress(old(Model()), Geo(), key)
    {
      match key
      case Escape => commands := commands.(quit := true);
      case KeyA => commands := commands.(frameOffsetDelta := commands.frameOffsetDelta + 1);
      case KeyD => commands := commands.(frameOffsetDelta := commands.frameOffsetDelta - 1);
      case KeyS =>
        toggles := toggles.(swapLeftRight := !toggles.swapLeftRight);
        var temp := leftText;
        leftText := rightText;
        rightText := temp;
      case ArrowLeft => commands := commands.(seekRelative := commands.seekRelative - 1.0);
      case ArrowDown => commands := commands.(seekRelative := commands.seekRelative - 10.0);
      case PageDown => commands := commands.(seekRelative := commands.seekRelative - 600.0);
      case ArrowRight => commands := commands.(seekRelative := commands.seekRelative + 1.0);
      case ArrowUp => commands := commands.(seekRelative := commands.seekRelative + 10.0);
      case PageUp => commands := commands.(seekRelative := commands.seekRelative + 600.0);
      case Plus => view := view.(zoomFactor := view.zoomFactor + ZoomStep);
      case KeypadPlus => view := view.(zoomFactor := view.zoomFactor + ZoomStep);
      case Minus => view := view.(zoomFactor := view.zoomFactor - ZoomStep);
      case KeypadMinus => view := view.(zoomFactor := view.zoomFactor - ZoomStep);
      case OtherKey =>
    }

    function GetQuit(): (q: bool)
      reads this
      ensures q == Model().commands.quit
    {
      commands.quit
    }

    function GetPlay(): (p: bool)
      reads this
      ensures p == Model().toggles.play
    {
      toggles.play
    }

    function GetSwapLeftRight(): (swapped: bool)
      reads this
      ensures swapped == Model().toggles.swapLeftRight
    {
      toggles.swapLeftRight
    }

    function GetSeekRelative(): (amount: real)
      reads this
      ensures amount == Model().commands.seekRelative
    {
      commands.seekRelative
    }

    function GetSeekFromStart(): (absolute: bool)
      reads this
      ensures absolute == Model().commands.seekFromStart
    {
      commands.seekFromStart
    }

    function GetFrameOffsetDelta(): (delta: int)
      reads this
      ensures delta == Model().commands.frameOffsetDelta
    {
      commands.frameOffsetDelta
    }
  }
}
