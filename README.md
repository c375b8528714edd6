# video-compare display engine in Dafny

This project models the `Display` class of video-compare, a tool that shows two
videos side by side to compare them. The class is in display.h and display.cpp.
The model covers four parts:

- **Difference engine.** In subtraction mode, `update_difference` computes an
  amplified, clamped per-channel difference between the two frames. It fills the
  display's own diff buffer from the split column to the right edge. It is
  modelled as an imperative method over arrays.
- **Zoom and pan geometry.** This covers `get_zoom`, the mapping of the pointer
  into video coordinates, and the source and destination rectangles of the
  zoomed blit. Floats are exact `real`s, with the C `(int)` cast and
  `std::round` written out.
- **Split-screen compositor of `refresh`.** This covers where the split line
  falls and which rectangles of the display texture are re-uploaded, and from
  where. Each `SDL_UpdateTexture` call becomes a `TextureUpdate` value.
- **Input state machine of `input`.** This covers the held-button refresh, the
  per-cycle command reset and the event switch. It is a class method whose
  effect is specified by a pure transition function (`InputMachine.Step`, folded
  by `Run` and `Poll`). The properties are proved about that function.

The getters, the constructor's initial state and the `error_message` hand-over
of `refresh` are modelled too.

Modules, in dependency order:

| module | file | contents |
|---|---|---|
| `Pixels` | pixels.dfy | `clampIntToByteRange`, `clampIntToByte`, the amplified channel difference |
| `Planes` | planes.dfy | byte offset of a channel in a pitched RGB24 plane, bounds and injectivity |
| `DifferenceEngine` | difference.dfy | specification of the diff buffer after `update_difference` |
| `ViewTransform` | view_transform.dfy | truncation, rounding, clamping, zoom, pointer mapping, zoomed rectangles |
| `Compositor` | compositor.dfy | the split column and the texture-upload plan (as written, and corrected) |
| `InputMachine` | input_machine.dfy | the abstract input state, events and the transition function |
| `InputProperties` | input_properties.dfy | lemmas about one poll cycle and about event queues |
| `DisplayModel` | display.dfy | `class Display`: constructor, `UpdateDifference`, `Refresh`, `Input`, getters |

The class holds the member variables that the core reads and writes. They are
grouped by role into six record-valued fields:

- `view`: `zoom_factor_` and `window_center_pixel_x_`/`window_center_pixel_y_`.
- `toggles`: `play_`, `swap_left_right_`, `show_left_`, `show_right_`,
  `show_hud_` and `subtraction_mode_`.
- `commands`: `quit_`, `seek_relative_`, `frame_offset_delta_` and
  `seek_from_start_`.
- `leftText`/`rightText`: the label textures and their sizes.
- `pointer`: the button flags, the right-drag origin, the anchors, and
  `mouse_x`/`mouse_y`.

Methods assign these fields in place. `Model()` packages them as an
`InputMachine.State`.

The diff buffer is an `array<byte>` of `video_width_ * video_height_ * 3` bytes
owned by the display. The frames are caller-owned arrays read through plane 0
and pitch 0.

Inputs that come from the outside world are parameters:

- the window size, from the display mode, is a constructor parameter;
- the rendered file-name labels are `Label` values;
- the pointer position that `SDL_GetMouseState` reports before the event loop
  is a parameter of `Input`;
- for each event, the pointer position and the Ctrl state (`SDL_GetModState`)
  are fields of the `Event`;
- the queue that `SDL_PollEvent` drains is a `seq<Event>`.

## Model

| member | source | states |
|---|---|---|
| Pixels.Abs | display.cpp:182-184 | the result is non-negative and is the value or its negation |
| Pixels.ClampIntToByteRange | display.cpp:23-27 | the result lies in [0, 255], is the input when it is already in range, 255 above and 0 below |
| Pixels.ClampIntToByte | display.cpp:29-32 | the byte cast loses nothing: the byte's value is the clamped int |
| Pixels.ChannelDiff | display.cpp:182-188 | one output channel is twice the absolute channel difference, saturated at 255 |
| Pixels.ChannelDiffSymmetric | display.cpp:182-184 | the difference does not depend on which frame is left, and identical channels give black |
| Pixels.ChannelDiffSaturates | display.cpp:182-188 | a channel saturates exactly when the frames differ by at least 128; otherwise it is exactly twice the difference |
| Planes.OffsetInPlane | display.cpp:168-200 | every channel of every pixel in the frame is addressed inside its plane when the plane fits its pitch |
| Planes.PackedPlaneFits | display.cpp:118 | the packed diff buffer (pitch video_width_ * 3) fits its allocated size, and for a non-empty frame its last row ends exactly at the end of the allocation |
| Planes.OffsetInjective | display.cpp:186-188 | with a pitch of at least three bytes per pixel, distinct (row, column, channel) triples never share a byte |
| DifferenceEngine.DiffUpdated | display.cpp:149-203 | the postcondition of update_difference: in every row, each channel at or right of the split is the amplified clamped difference of the two frames' channels, and each channel left of it keeps its previous value |
| DifferenceEngine.RowDone | display.cpp:191-201 | once a row is finished up to the right edge, the partial-update invariant holds at the start of the next row |
| DifferenceEngine.WritePixel | display.cpp:170-189 | one inner-loop iteration extends the updated region by exactly one pixel |
| DifferenceEngine.WriteDiffPixelAt | display.cpp:186-188 | after the write, each channel of the written pixel holds its difference and any other pixel is unchanged |
| DifferenceEngine.WriteCell | display.cpp:186-188 | a sample of the buffer after the write is the difference at the written pixel and the old sample elsewhere |
| DifferenceEngine.OffsetCovers | display.cpp:199-201 | every byte of the packed diff buffer is the byte of some channel of some pixel of the frame |
| DifferenceEngine.DiffUpdatedIsDeterministic | display.cpp:149-203 | the specification of update_difference fixes the whole buffer: two results that meet it are equal |
| DifferenceEngine.SplitAtRightEdgeChangesNothing | display.cpp:170 | with the split at the right edge the loop has no columns to visit and the buffer is left as it was |
| ViewTransform.Trunc | display.cpp:261-268 | the C (int) cast truncates toward zero: within one unit of the real, on the side of zero |
| ViewTransform.Round | display.cpp:224-225 | std::round gives the nearest integer, a tie going away from zero (up for a non-negative real, down for a negative one), with the real's sign |
| ViewTransform.Clamp | display.cpp:224-225 | std::min/std::max clamping lands in [lo, hi], keeps a value already inside, gives lo for a value below and hi for a value above |
| ViewTransform.GetZoom | display.cpp:205-211 | the scale is positive, is 1 + zoom_factor_ from 0 upwards, is the reciprocal of 1 - zoom_factor_ below 0, and is at least 1 exactly for a non-negative factor |
| ViewTransform.ZoomReciprocal | display.cpp:205-211 | opposite zoom factors give reciprocal scales |
| ViewTransform.ZoomStrictlyIncreasing | display.cpp:205-211 | a larger zoom factor always gives a strictly larger scale |
| ViewTransform.PointerToVideo | display.cpp:224-225 | the pointer's video coordinate always lies within [0, video size] |
| ViewTransform.WindowCentreMapsToPanCentre | display.cpp:224 | at every zoom, the window centre maps to the pan centre when the pan centre lies inside the frame |
| ViewTransform.UnitZoomIsTranslation | display.cpp:224 | at scale 1 the mapping is a translation by the pan centre minus half the window, clamped to the frame |
| ViewTransform.SourceRect | display.cpp:261-265 | the zoomed source area lies inside the frame |
| ViewTransform.DestRect | display.cpp:266-268 | the destination area starts inside the window and is never wider or taller than the window |
| ViewTransform.StartViewShowsWholeFrameCentred | display.cpp:261-268 | at the initial pan and scale 1, a video smaller than the window is shown whole and centred |
| Compositor.SplitX | display.cpp:232 | the split is the pointer's column in compare mode, the full width for the left video alone and 0 for the right alone |
| Compositor.UpdatePlanAsWritten | display.cpp:235-258 | the as-written guards: at most two uploads, the left one iff the left video is shown and the split is positive, a right one iff the right video is shown and the split is before video_width_ - 1 |
| Compositor.UpdatePlan | display.cpp:235-258 | the same plan with the right guard corrected to split < video_width_ |
| Compositor.LeftUpdate | display.cpp:235-240 | the left upload covers exactly the columns [0, split) and reads the left frame from its start at its own pitch |
| Compositor.RightUpdate | display.cpp:241-256 | the right upload covers exactly the columns [split, video_width_), starts at byte split * 3 of its plane, and reads the diff buffer exactly in subtraction mode |
| Compositor.RightSourceFollowsMode | display.cpp:243-257 | in both the corrected and the as-written plan, the right upload covers [split, width) from byte split * 3; it reads the diff buffer at the packed pitch in subtraction mode and the right frame at its own pitch otherwise |
| Compositor.PlansAgreeOffLastColumn | display.cpp:235-258 | unless the right video is shown and the split is on the last column, the corrected plan is exactly the plan as written |
| Compositor.EveryColumnUpdated | display.cpp:235-258 | with the corrected guard, and either video shown, every column of the frame is re-uploaded by some update |
| Compositor.LastColumnStaleAsWritten | display.cpp:241 | as written, a compare-mode split on the last column uploads nothing for that column |
| Compositor.GuardsDifferOnlyAtLastColumn | display.cpp:241 | the as-written and corrected right guards disagree exactly when the right video is shown and the split is on the last column |
| InputMachine.Initial | display.h:32-41 | a fresh display has zoom factor 0 (scale 1), the pan centre at the video midpoint (video_width_ / 2, video_height_ / 2), the tracked pointer at the window centre (window_width_ / 2, window_height_ / 2), so both lie inside the frame and the window; it plays, shows both videos and the HUD, has no swap or subtraction, neutral commands and no button held |
| InputMachine.HoldRefresh | display.cpp:384-393 | the hold refresh changes only the tracked pointer and the pan centre: a held left button moves the tracked pointer to the current position, and without a held right button the view is kept |
| InputMachine.ResetCommands | display.cpp:395-397 | the reset clears this cycle's seek amount, absolute-seek flag and frame step, keeps quit_ and changes nothing else |
| InputMachine.ButtonDown | display.cpp:403-427 | a button press changes only the pointer state and the command fields; the view, the toggles and the labels stay |
| InputMachine.ButtonUp | display.cpp:428-433 | a button release clears only that button's held flag and changes nothing else |
| InputMachine.Wheel | display.cpp:434-439 | a wheel notch up adds 0.2 to zoom_factor_, a notch down takes 0.2 away, no motion changes nothing, and nothing but the zoom factor changes |
| InputMachine.PanKey | display.cpp:510-525 | keypad 4 and 6 move the pan centre left or right only, 8 and 2 up or down only, 5 recentres on the frame midpoint, the zoom is kept and other keys leave the view |
| InputMachine.ToggleKey | display.cpp:446-460 | space, 1, 2, 3 and 0 each flip their own flag and change no other; any other key leaves the toggles |
| InputMachine.CommandKey | display.cpp:443-509 | the command keys never touch the pointer or the pan centre; quit_ is set exactly by Escape; only s flips the swap flag and exchanges the labels |
| InputMachine.KeyPress | display.cpp:440-529 | a key press never touches the pointer state, sets quit_ exactly for Escape, and a pan key changes only the view, a toggle key only the toggles |
| InputMachine.Step | display.cpp:401-535 | one event never clears quit_; only button events change the pointer state; only key presses change the toggles and labels; only key presses and the wheel change the view |
| InputMachine.Run | display.cpp:399-536 | an empty queue changes nothing, and a queue never clears quit_ |
| InputMachine.Poll | display.cpp:382-537 | one call of input never clears quit_, and with an empty queue leaves exactly the reset commands |
| InputProperties.StepFrameDelta | display.cpp:461-466 | one event changes frame_offset_delta_ by +1 for a, -1 for d and 0 for anything else |
| InputProperties.StepSeekDelta | display.cpp:484-501 | one event other than a Ctrl-click adds its own arrow or page amount to seek_relative_ and leaves seek_from_start_ |
| InputProperties.StepQuit | display.cpp:441-532 | one event sets quit_ exactly when it is Escape or a quit signal, and never clears it |
| InputProperties.StepZoom | display.cpp:434-509 | one event moves zoom_factor_ by its own number of 0.2 steps (wheel notch, plus or minus key) |
| InputProperties.PollWithoutEventsIsNeutral | display.cpp:395-397 | a poll cycle with an empty queue requests no seek and no frame step, and keeps quit_ |
| InputProperties.FrameStepsAccumulate | display.cpp:461-466 | over a queue, frame_offset_delta_ grows by the count of a keys minus the count of d keys |
| InputProperties.SeeksAccumulate | display.cpp:484-501 | over a queue without a Ctrl-click, seek_relative_ grows by the sum of the arrow and page amounts and seek_from_start_ is kept |
| InputProperties.PollCommandsAreSums | display.cpp:382-537 | whatever the previous cycle requested, a poll cycle's frame step is the sum of its own a/d keys, and for a queue without a Ctrl-click its seek is the sum of its own arrow and page keys and is relative |
| InputProperties.RunAppend | display.cpp:399-536 | dispatching two queues one after the other is the same as dispatching their concatenation |
| InputProperties.CtrlClickCycle | display.cpp:406-413 | in a cycle whose last Ctrl-click is at x, the seek is absolute, to x / window_width_ plus the arrow and page amounts after the click, whatever came before it |
| InputProperties.CtrlClickSeeksFromStart | display.cpp:406-413 | a Ctrl-left-click requests an absolute seek to the clicked fraction of the window width and leaves the pointer state |
| InputProperties.LeftPressStartsDrag | display.cpp:414-418 | a plain left press marks the button held, moves the tracked pointer to the press, and requests nothing |
| InputProperties.RightPressAnchorsDrag | display.cpp:420-432 | a right press records the press position and anchors the drag at the current pan centre; right release ends the drag |
| InputProperties.SwapTwiceRestores | display.cpp:467-483 | s inverts the side assignment and exchanges the labels; pressed twice it restores the whole state |
| InputProperties.TogglesAreInvolutions | display.cpp:446-460 | space, 1, 2, 3 and 0 each flip their own flag only, and pressed twice restore the state |
| InputProperties.Keypad5Recentres | display.cpp:522-525 | keypad 5 sets the pan centre to the frame midpoint and changes nothing else |
| InputProperties.PanIsNotClamped | display.cpp:510-512 | the keypad pan is not clamped: at scale 1 it can move the centre left of column 0 |
| InputProperties.PanAmount | display.cpp:510-521 | keypad 4, 6, 8 and 2 move the pan centre by window size / scale / 20 in their direction, to within one pixel of truncation |
| InputProperties.DragAmount | display.cpp:387-393 | with the right button held, the pan centre is the anchor plus the press position minus the current position, divided by the scale, to within one pixel of truncation |
| InputProperties.DragWithoutMotionKeepsAnchor | display.cpp:387-393 | with the right button held and the pointer back at the press position, the pan centre is the anchor |
| InputProperties.UnitDragIsExact | display.cpp:387-393 | at scale 1, a right drag moves the pan centre opposite to the pointer, pixel for pixel |
| InputProperties.HoldRefreshTracksPointer | display.cpp:384-393 | a held left button makes the tracked pointer follow the current position; with no button held the refresh changes nothing |
| InputProperties.QuitIffRequested | display.cpp:441-532 | after a queue, quit_ is set exactly when it was already set or some event is Escape or a quit signal |
| InputProperties.ZoomFactorCountsSteps | display.cpp:434-509 | after a queue, zoom_factor_ equals its old value plus 0.2 times the number of zoom-in events minus the number of zoom-out events |
| InputProperties.InitialStateIsNeutral | display.h:32-41 | a fresh display plays, shows both videos and the HUD, has no swap and no subtraction, requests nothing and holds no button |
| InputProperties.InitialSplitAtMiddle | display.cpp:123-124 | with the pointer at the window centre, the initial split falls on the video's middle column |
| DisplayModel.Display.constructor | display.cpp:47-126 | the new display has the given frame and window sizes, a diff buffer of width * height * 3 bytes, and the initial input state |
| DisplayModel.Display.UpdateDifference | display.cpp:149-203 | afterwards every byte of the diff buffer at or right of the split holds the amplified, clamped difference of the two frames; every byte left of it is unchanged |
| DisplayModel.Display.DifferenceRow | display.cpp:170-189 | the inner loop extends the updated region by one full row from the split to the right edge |
| DisplayModel.Display.GetZoom | display.cpp:205-211 | the current scale is positive and at least 1 exactly when zoom_factor_ is non-negative |
| DisplayModel.Display.Refresh | display.cpp:213-268 | the uploads are the plan with the corrected right guard split < video_width_ at the split that the pointer chooses (none when no video is shown); the diff buffer is recomputed exactly when that right part is uploaded in subtraction mode; the blit uses the zoomed rectangles; a non-empty error message replaces the held overlay message |
| DisplayModel.Display.Input | display.cpp:382-537 | the new state is one poll cycle (hold refresh, command reset, then every queued event in order) of the old state |
| DisplayModel.Display.RefreshHeldButtons | display.cpp:384-393 | the new state is the hold refresh of the old one |
| DisplayModel.Display.HandleEvent | display.cpp:401-535 | dispatching one event moves the state by one transition |
| DisplayModel.Display.HandleKey | display.cpp:440-529 | a key press moves the state by the key's transition |
| DisplayModel.Display.HandlePanKey | display.cpp:510-525 | a keypad key pans by a twentieth of the window in video pixels, truncated, or recentres |
| DisplayModel.Display.HandleToggleKey | display.cpp:446-460 | a toggle key flips its flag |
| DisplayModel.Display.HandleCommandKey | display.cpp:443-509 | the quit, frame-step, swap, seek and zoom keys move the state by their transitions |
| DisplayModel.Display.GetQuit | display.cpp:539-542 | returns the quit request of the current state |
| DisplayModel.Display.GetPlay | display.cpp:544-547 | returns the play flag of the current state |
| DisplayModel.Display.GetSwapLeftRight | display.cpp:549-552 | returns the swap flag of the current state |
| DisplayModel.Display.GetSeekRelative | display.cpp:554-557 | returns the seek amount requested in the current cycle |
| DisplayModel.Display.GetSeekFromStart | display.cpp:559-562 | returns whether the current cycle's seek is absolute |
| DisplayModel.Display.GetFrameOffsetDelta | display.cpp:564-567 | returns the frame step requested in the current cycle |

## Left out

- SDL and TTF set-up and tear-down are not modelled. This covers the window,
  renderer, fonts, texture creation, render clear, copy and present, and the
  destructor at display.cpp:36-147. They are calls into libraries this model
  cannot see.
- The error paths of the three `SDL_UpdateTexture` calls in `refresh` are not
  modelled (display.cpp:239, 249-252 and 256). There `check_SDL` throws when a
  call fails. The model records each upload as a `TextureUpdate` and treats
  every upload as succeeding, because the upload itself happens inside SDL.
- The HUD text and background boxes and the compare-mode slider line are left
  out (display.cpp:273-343, 369-377). They only draw. The `left_position`,
  `right_position` and `current_total_browsable` parameters of `refresh` feed
  them alone, so they are not parameters of `Refresh`.
- The error overlay fade is not modelled (display.cpp:348 and 355-367). It needs
  the wall clock and `sqrt` on floats, so the model records only which message
  the held overlay shows.
- The error texture leak is not modelled. A new error message replaces
  `error_message_texture` without destroying the previous one
  (display.cpp:350); texture lifetimes are outside the model.
- Planes 1 and 2 and pitches 1 and 2 are not used. The source uses only
  `planes_*[0]` and `pitches_*[0]` of its RGB24 frames.
- Pointer positions at dispatch time are taken from the event. In the source,
  `SDL_GetMouseState` reads the current position during dispatch; the model
  assumes it equals the position carried by the event.
- DisplayModel.Display.constructor: the window size is a parameter here. The
  source reads it from the display mode and then from the created window.
- DisplayModel.Display.constructor: the source leaves `right_button_down_x_`,
  `right_button_down_y_` and the two anchors uninitialised; the model sets them
  to 0. They are read only while the right button is held, after a right press
  has set them.
- DisplayModel.Display.constructor: the source allocates the diff buffer with
  indeterminate contents, and Dafny's array starts zero-filled. No stated
  property depends on the initial contents.
- Floats are not modelled bit for bit. `zoom_factor_`, `seek_relative_` and the
  geometry are 32-bit floats in the source and exact reals here.
- InputProperties.ZoomFactorCountsSteps: the count holds exactly on reals only.
  With 32-bit floats, repeated ±0.2 steps collect rounding error, so one zoom in
  and one zoom out need not restore `zoom_factor_` bit for bit.
- DisplayModel.Display.Refresh: follows the corrected right guard
  `split_x < video_width_`, not the guard `split_x < (video_width_ - 1)` of
  display.cpp:241 (see "## Findings"). The two differ only when the right video
  is shown and the split is on the last column, which happens in compare mode
  with the pointer over the last column, or with the right video alone and a
  one-column frame. There the source uploads no right part and does not call
  `update_difference`. The model uploads column `video_width_ - 1` and, in
  subtraction mode, recomputes that column of the diff buffer.
  Compositor.PlansAgreeOffLastColumn proves that the two plans are equal
  everywhere else.
- 32-bit `int` overflow is not modelled, for example in `split_x * 3` or in an
  `(int)` cast of a float outside the int range. All integers are unbounded.
- `mouse_video_y` is computed by `Refresh` as in the source (display.cpp:225),
  but nothing uses it.
- The rest of the program is not part of this model: main.cpp, the demuxer,
  decoder and the frame queues.

## Findings

| source | as written | input that shows it | evidently intended | confidence | as-written member | corrected member |
|---|---|---|---|---|---|---|
| display.cpp:241 | the right part of the texture is uploaded only when `split_x < video_width_ - 1` | compare mode with the pointer over the last video column, so `split_x == video_width_ - 1`: only columns [0, video_width_ - 1) are uploaded, and the last column keeps the previous frame's pixels (or the previous diff) | upload the right part whenever it is at least one column wide, `split_x < video_width_` | medium, not executed | Compositor.LastColumnStaleAsWritten | Compositor.EveryColumnUpdated |
