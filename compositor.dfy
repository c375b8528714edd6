/**
 * The split-screen compositor of refresh (display.cpp): where the split
 * falls and which sub-rectangles of the display texture are re-uploaded,
 * each SDL_UpdateTexture call recorded as a value.
 */
module Compositor {
  import opened ViewTransform

  /** The pixel source of a texture upload. */
  datatype Plane = LeftFrame | RightFrame | DiffBuffer

  /** One SDL_UpdateTexture call: the texture rectangle, where its bytes come from (plane, byte offset into it) and the row pitch. */
  datatype TextureUpdate = TextureUpdate(rect: Rect, source: Plane, offset: int, pitch: int)

  /** Compare mode: both videos are shown and the split follows the pointer. */
  predicate CompareMode(showLeft: bool, showRight: bool)
  {
    showLeft && showRight
  }

  /** The split column in video space: the pointer's column in compare mode, otherwise the whole width for the left video alone and 0 for the right alone. */
  function SplitX(showLeft: bool, showRight: bool, mouseVideoX: int, videoWidth: int): (split: int)
    requires 0 <= mouseVideoX <= videoWidth
    ensures 0 <= split <= videoWidth
    ensures CompareMode(showLeft, showRight) ==> split == mouseVideoX
    ensures showLeft && !showRight ==> split == videoWidth
    ensures !showLeft ==> split == 0
  {
    if CompareMode(showLeft, showRight) then mouseVideoX else if showLeft then videoWidth else 0
  }

  /** The upload of columns [0, split) of the left frame. */
  function LeftUpdate(split: int, videoHeight: int, pitchLeft: int): (u: TextureUpdate)
    ensures forall x :: ColumnUpdated([u], x) <==> 0 <= x < split
    ensures u.source == LeftFrame && u.offset == 0 && u.pitch == pitchLeft
  {
    TextureUpdate(Rect(0, 0, split, videoHeight), LeftFrame, 0, pitchLeft)
  }

  /** The upload of columns [split, width) from the diff buffer in subtraction mode, otherwise from the right frame. */
  function RightUpdate(split: int, videoWidth: int, videoHeight: int, subtraction: bool, pitchRight: int): (u: TextureUpdate)
    ensures forall x :: ColumnUpdated([u], x) <==> split <= x < videoWidth
    ensures u.source != LeftFrame && (u.source == DiffBuffer <==> subtraction)
    ensures u.offset == split * 3
  {
    var rect := Rect(split, 0, videoWidth - split, videoHeight);
    if subtraction then TextureUpdate(rect, DiffBuffer, split * 3, videoWidth * 3)
    else TextureUpdate(rect, RightFrame, split * 3, pitchRight)
  }

  /** The right part is uploaded under the guard of display.cpp:241, which stops one column short. */
  predicate RightShownAsWritten(showRight: bool, split: int, videoWidth: int)
  {
    showRight && split < videoWidth - 1
  }

  /** The right part is uploaded whenever it is shown and at least one column wide. */
  predicate RightShown(showRight: bool, split: int, videoWidth: int)
  {
    showRight && split < videoWidth
  }

  predicate LeftShown(showLeft: bool, split: int)
  {
    showLeft && split > 0
  }

  /** The uploads of one refresh as the source performs them: left first, then right. */
  function UpdatePlanAsWritten(showLeft: bool, showRight: bool, subtraction: bool, split: int,
                               videoWidth: int, videoHeight: int, pitchLeft: int, pitchRight: int): (plan: seq<TextureUpdate>)
    ensures |plan| <= 2
    ensures (LeftUpdate(split, videoHeight, pitchLeft) in plan) <==> LeftShown(showLeft, split)
    ensures (exists u :: u in plan && u.source != LeftFrame) <==> RightShownAsWritten(showRight, split, videoWidth)
  {
    (if LeftShown(showLeft, split) then [LeftUpdate(split, videoHeight, pitchLeft)] else [])
    + (if RightShownAsWritten(showRight, split, videoWidth)
       then [RightUpdate(split, videoWidth, videoHeight, subtraction, pitchRight)] else [])
  }

  /** The uploads of one refresh with the right-hand guard corrected to cover the last column. */
  function UpdatePlan(showLeft: bool, showRight: bool, subtraction: bool, split: int,
                      videoWidth: int, videoHeight: int, pitchLeft: int, pitchRight: int): (plan: seq<TextureUpdate>)
    ensures |plan| <= 2
    ensures (LeftUpdate(split, videoHeight, pitchLeft) in plan) <==> LeftShown(showLeft, split)
    ensures (exists u :: u in plan && u.source != LeftFrame) <==> RightShown(showRight, split, videoWidth)
  {
    (if LeftShown(showLeft, split) then [LeftUpdate(split, videoHeight, pitchLeft)] else [])
    + (if RightShown(showRight, split, videoWidth)
       then [RightUpdate(split, videoWidth, videoHeight, subtraction, pitchRight)] else [])
  }

  /** Texture column x is written by some upload of the plan. */
  predicate ColumnUpdated(plan: seq<TextureUpdate>, x: int)
  {
    exists u :: u in plan && u.rect.x <= x < u.rect.x + u.rect.w
  }

  /** In subtraction mode the right part comes from the diff buffer, at the split's byte offset and the packed pitch; otherwise from the right frame at its own pitch. This holds of both plans. */
  lemma {:induction false} RightSourceFollowsMode(showLeft: bool, showRight: bool, subtraction: bool, split: int,
                                                  videoWidth: int, videoHeight: int, pitchLeft: int, pitchRight: int)
    requires RightShown(showRight, split, videoWidth)
    ensures var plan := UpdatePlan(showLeft, showRight, subtraction, split, videoWidth, videoHeight, pitchLeft, pitchRight);
            RightPart(plan[|plan| - 1], split, videoWidth, videoHeight, subtraction, pitchRight)
    ensures RightShownAsWritten(showRight, split, videoWidth) ==>
              var plan := UpdatePlanAsWritten(showLeft, showRight, subtraction, split, videoWidth, videoHeight, pitchLeft, pitchRight);
              RightPart(plan[|plan| - 1], split, videoWidth, videoHeight, subtraction, pitchRight)
  {
  }

  /** An upload of columns [split, width) from the diff buffer at the packed pitch in subtraction mode, otherwise from the right frame at its own pitch. */
  predicate RightPart(u: TextureUpdate, split: int, videoWidth: int, videoHeight: int, subtraction: bool, pitchRight: int)
  {
    && u.rect == Rect(split, 0, videoWidth - split, videoHeight)
    && u.offset == split * 3
    && (subtraction ==> u.source == DiffBuffer && u.pitch == videoWidth * 3)
    && (!subtraction ==> u.source == RightFrame && u.pitch == pitchRight)
  }

  /** Away from a split on the last column with the right video shown, the corrected plan is exactly the plan as written. */
  lemma PlansAgreeOffLastColumn(showLeft: bool, showRight: bool, subtraction: bool, split: int,
                                videoWidth: int, videoHeight: int, pitchLeft: int, pitchRight: int)
    requires !(showRight && split == videoWidth - 1)
    ensures UpdatePlan(showLeft, showRight, subtraction, split, videoWidth, videoHeight, pitchLeft, pitchRight)
         == UpdatePlanAsWritten(showLeft, showRight, subtraction, split, videoWidth, videoHeight, pitchLeft, pitchRight)
  {
  }

  /**
   * With either video shown, every column of the frame is re-uploaded by the
   * corrected plan: the left part covers [0, split), the right part
   * [split, width), and the split is placed by SplitX.
   */
  lemma {:induction false} EveryColumnUpdated(showLeft: bool, showRight: bool, subtraction: bool, mouseVideoX: int,
                                              videoWidth: int, videoHeight: int, pitchLeft: int, pitchRight: int, x: int)
    requires 0 <= mouseVideoX <= videoWidth && 0 <= x < videoWidth
    requires showLeft || showRight
    ensures var split := SplitX(showLeft, showRight, mouseVideoX, videoWidth);
            ColumnUpdated(UpdatePlan(showLeft, showRight, subtraction, split, videoWidth, videoHeight, pitchLeft, pitchRight), x)
  {
    var split := SplitX(showLeft, showRight, mouseVideoX, videoWidth);
    var plan := UpdatePlan(showLeft, showRight, subtraction, split, videoWidth, videoHeight, pitchLeft, pitchRight);
    if x < split {
      assert LeftUpdate(split, videoHeight, pitchLeft) in plan;
    } else {
      var u := RightUpdate(split, videoWidth, videoHeight, subtraction, pitchRight);
      assert u == plan[|plan| - 1];
      assert u in plan;
    }
  }

  /**
   * As written, a split on the last column (the pointer over the last video
   * column in compare mode) uploads only the left part: that column of the
   * texture keeps whatever an earlier refresh put there.
   */
  lemma {:induction false} LastColumnStaleAsWritten(subtraction: bool, videoWidth: int, videoHeight: int, pitchLeft: int, pitchRight: int)
    requires videoWidth >= 1
    ensures var split := SplitX(true, true, videoWidth - 1, videoWidth);
            var plan := UpdatePlanAsWritten(true, true, subtraction, split, videoWidth, videoHeight, pitchLeft, pitchRight);
            !ColumnUpdated(plan, videoWidth - 1)
  {
    var split := videoWidth - 1;
    var plan := UpdatePlanAsWritten(true, true, subtraction, split, videoWidth, videoHeight, pitchLeft, pitchRight);
    assert plan == (if split > 0 then [LeftUpdate(split, videoHeight, pitchLeft)] else []);
  }

  /** The two guards disagree exactly on a split at the last column. */
  lemma GuardsDifferOnlyAtLastColumn(showRight: bool, split: int, videoWidth: int)
    ensures RightShownAsWritten(showRight, split, videoWidth) != RightShown(showRight, split, videoWidth)
        <==> showRight && split == videoWidth - 1
  {
  }
}
