/**
 * Specification of the difference engine (display.cpp, update_difference):
 * which bytes of the diff buffer hold the amplified difference of the two
 * frames and which keep their previous value, as the row-by-row loop
 * progresses and once it is done.
 */
module DifferenceEngine {
  import opened Pixels
  import opened Planes

  /** Both source frames fit their pitches. */
  predicate SourcesFit(left: seq<byte>, pitchLeft: int, right: seq<byte>, pitchRight: int, width: nat, height: nat)
  {
    PlaneFits(|left|, pitchLeft, width, height) && PlaneFits(|right|, pitchRight, width, height)
  }

  /** Channel c of pixel (x, y) of a packed buffer, whose rows are width * 3 bytes apart. */
  function DiffSample(buffer: seq<byte>, width: nat, height: nat, y: int, x: int, c: int): (sample: byte)
    requires |buffer| == width * height * 3 && InFrame(y, x, c, width, height)
  {
    PackedPlaneFits(width, height);
    Sample(buffer, width * 3, width, height, y, x, c)
  }

  /** The diff-buffer value the engine computes for channel c of pixel (x, y). */
  function Expected(left: seq<byte>, pitchLeft: int, right: seq<byte>, pitchRight: int,
                    width: nat, height: nat, y: int, x: int, c: int): (value: byte)
    requires SourcesFit(left, pitchLeft, right, pitchRight, width, height)
    requires InFrame(y, x, c, width, height)
  {
    ChannelDiff(Sample(left, pitchLeft, width, height, y, x, c), Sample(right, pitchRight, width, height, y, x, c))
  }

  /** The buffer after one iteration of the inner loop: the three channels of pixel (x, row) overwritten by their differences. */
  function WriteDiffPixel(buffer: seq<byte>, left: seq<byte>, pitchLeft: int, right: seq<byte>, pitchRight: int,
                          width: nat, height: nat, row: int, x: int): (r: seq<byte>)
    requires |buffer| == width * height * 3 && SourcesFit(left, pitchLeft, right, pitchRight, width, height)
    requires 0 <= row < height && 0 <= x < width
    ensures |r| == |buffer|
  {
    var p := width * 3;
    PackedPlaneFits(width, height);
    OffsetInPlane(|buffer|, p, width, height, row, x, 0);
    OffsetInPlane(|buffer|, p, width, height, row, x, 2);
    buffer[Offset(row, x, 0, p) := Expected(left, pitchLeft, right, pitchRight, width, height, row, x, 0)]
          [Offset(row, x, 1, p) := Expected(left, pitchLeft, right, pitchRight, width, height, row, x, 1)]
          [Offset(row, x, 2, p) := Expected(left, pitchLeft, right, pitchRight, width, height, row, x, 2)]
  }

  /** Pixel (x, y) lies in the finished part: a complete row, at or right of split, or one of the first cols columns from split of row rows. */
  predicate Done(split: int, rows: int, cols: int, y: int, x: int)
  {
    (y < rows && split <= x) || (y == rows && split <= x < split + cols)
  }

  /**
   * The loop has finished rows [0, rows) and columns [split, split + cols) of
   * row rows: those pixels hold the difference, every other pixel still holds
   * its value from before.
   */
  ghost predicate PartlyUpdated(before: seq<byte>, after: seq<byte>, left: seq<byte>, pitchLeft: int,
                                right: seq<byte>, pitchRight: int, width: nat, height: nat,
                                split: int, rows: int, cols: int)
  {
    && |before| == |after| == width * height * 3
    && SourcesFit(left, pitchLeft, right, pitchRight, width, height)
    && forall y, x, c | InFrame(y, x, c, width, height) ::
         DiffSample(after, width, height, y, x, c)
         == if Done(split, rows, cols, y, x)
            then Expected(left, pitchLeft, right, pitchRight, width, height, y, x, c)
            else DiffSample(before, width, height, y, x, c)
  }

  /**
   * The engine's whole effect: in every row, each channel of each pixel at a
   * column of at least split holds min(|l - r| * 2, 255) of the two frames'
   * channels, and each pixel left of split keeps its previous value.
   */
  ghost predicate DiffUpdated(before: seq<byte>, after: seq<byte>, left: seq<byte>, pitchLeft: int,
                              right: seq<byte>, pitchRight: int, width: nat, height: nat, split: int)
    ensures DiffUpdated(before, after, left, pitchLeft, right, pitchRight, width, height, split) ==>
              && |after| == |before| == width * height * 3
              && SourcesFit(left, pitchLeft, right, pitchRight, width, height)
              && (forall y, x, c | InFrame(y, x, c, width, height) && split <= x ::
                    DiffSample(after, width, height, y, x, c)
                    == ChannelDiff(Sample(left, pitchLeft, width, height, y, x, c), Sample(right, pitchRight, width, height, y, x, c)))
              && (forall y, x, c | InFrame(y, x, c, width, height) && x < split ::
                    DiffSample(after, width, height, y, x, c) == DiffSample(before, width, height, y, x, c))
  {
    PartlyUpdated(before, after, left, pitchLeft, right, pitchRight, width, height, split, height, 0)
  }

  /** A completed row is the same as the start of the next one. */
  lemma RowDone(before: seq<byte>, after: seq<byte>, left: seq<byte>, pitchLeft: int,
                right: seq<byte>, pitchRight: int, width: nat, height: nat, split: int, row: int)
    requires 0 <= split <= width
    requires PartlyUpdated(before, after, left, pitchLeft, right, pitchRight, width, height, split, row, width - split)
    ensures PartlyUpdated(before, after, left, pitchLeft, right, pitchRight, width, height, split, row + 1, 0)
  {
  }

  /** Writing the three channels of the next pixel of the current row extends the finished part by one column. */
  lemma {:induction false} WritePixel(before: seq<byte>, after: seq<byte>, left: seq<byte>, pitchLeft: int,
                                      right: seq<byte>, pitchRight: int, width: nat, height: nat,
                                      split: int, row: int, cols: int)
    requires 0 <= split && 0 <= row < height && 0 <= cols && split + cols < width
    requires PartlyUpdated(before, after, left, pitchLeft, right, pitchRight, width, height, split, row, cols)
    ensures PartlyUpdated(before, WriteDiffPixel(after, left, pitchLeft, right, pitchRight, width, height, row, split + cols),
                          left, pitchLeft, right, pitchRight, width, height, split, row, cols + 1)
  {
    var next := WriteDiffPixel(after, left, pitchLeft, right, pitchRight, width, height, row, split + cols);
    forall y, x, c | InFrame(y, x, c, width, height)
      ensures DiffSample(next, width, height, y, x, c)
              == if Done(split, row, cols + 1, y, x)
                 then Expected(left, pitchLeft, right, pitchRight, width, height, y, x, c)
                 else DiffSample(before, width, height, y, x, c)
    {
      WriteCell(before, after, left, pitchLeft, right, pitchRight, width, height, split, row, cols, y, x, c);
    }
  }

  /** What WriteDiffPixel leaves at one byte: the written pixel's channels hold their differences, every other byte is kept. */
  lemma {:induction false} WriteDiffPixelAt(buffer: seq<byte>, left: seq<byte>, pitchLeft: int, right: seq<byte>, pitchRight: int,
                                            width: nat, height: nat, row: int, x0: int, y: int, x: int, c: int)
    requires |buffer| == width * height * 3 && SourcesFit(left, pitchLeft, right, pitchRight, width, height)
    requires 0 <= row < height && 0 <= x0 < width
    requires InFrame(y, x, c, width, height)
    ensures DiffSample(WriteDiffPixel(buffer, left, pitchLeft, right, pitchRight, width, height, row, x0), width, height, y, x, c)
            == if y == row && x == x0 then Expected(left, pitchLeft, right, pitchRight, width, height, y, x, c)
               else DiffSample(buffer, width, height, y, x, c)
  {
    var p := width * 3;
    PackedPlaneFits(width, height);
    OffsetInPlane(|buffer|, p, width, height, row, x0, 0);
    OffsetInPlane(|buffer|, p, width, height, row, x0, 2);
    OffsetInPlane(|buffer|, p, width, height, y, x, c);
    var o0 := Offset(row, x0, 0, p);
    var o := Offset(y, x, c, p);
    var v0 := Expected(left, pitchLeft, right, pitchRight, width, height, row, x0, 0);
    var v1 := Expected(left, pitchLeft, right, pitchRight, width, height, row, x0, 1);
    var v2 := Expected(left, pitchLeft, right, pitchRight, width, height, row, x0, 2);
    var next := buffer[o0 := v0][o0 + 1 := v1][o0 + 2 := v2];
    assert Offset(row, x0, 1, p) == o0 + 1 && Offset(row, x0, 2, p) == o0 + 2;
    assert WriteDiffPixel(buffer, left, pitchLeft, right, pitchRight, width, height, row, x0) == next;
    assert DiffSample(next, width, height, y, x, c) == next[o];
    if y == row && x == x0 {
      assert o == o0 + c;
    } else {
      if o == o0 { OffsetInjective(p, width, y, x, c, row, x0, 0); }
      if o == o0 + 1 { OffsetInjective(p, width, y, x, c, row, x0, 1); }
      if o == o0 + 2 { OffsetInjective(p, width, y, x, c, row, x0, 2); }
      assert next[o] == buffer[o];
    }
  }

  /** One pixel channel of WritePixel's conclusion. */
  lemma {:induction false} WriteCell(before: seq<byte>, after: seq<byte>, left: seq<byte>, pitchLeft: int,
                                     right: seq<byte>, pitchRight: int, width: nat, height: nat,
                                     split: int, row: int, cols: int, y: int, x: int, c: int)
    requires 0 <= split && 0 <= row < height && 0 <= cols && split + cols < width
    requires InFrame(y, x, c, width, height)
    requires PartlyUpdated(before, after, left, pitchLeft, right, pitchRight, width, height, split, row, cols)
    ensures DiffSample(WriteDiffPixel(after, left, pitchLeft, right, pitchRight, width, height, row, split + cols), width, height, y, x, c)
            == if Done(split, row, cols + 1, y, x)
               then Expected(left, pitchLeft, right, pitchRight, width, height, y, x, c)
               else DiffSample(before, width, height, y, x, c)
  {
    WriteDiffPixelAt(after, left, pitchLeft, right, pitchRight, width, height, row, split + cols, y, x, c);
  }

  lemma DivMod(i: int, p: int)
    requires 0 <= i && p > 0
    ensures i == (i / p) * p + i % p && 0 <= i % p < p && i / p >= 0
  {
  }

  lemma DivBelow(i: int, p: int, n: int)
    requires 0 <= i < n * p && p > 0
    ensures i / p < n
  {
    DivMod(i, p);
    if i / p >= n {
      MulMonotone(n, i / p, p);
      assert false;
    }
  }

  /** Every byte of a packed frame buffer is some channel of some pixel. */
  lemma {:induction false} OffsetCovers(width: nat, height: nat, i: int) returns (y: int, x: int, c: int)
    requires 0 <= i < width * height * 3
    ensures InFrame(y, x, c, width, height) && Offset(y, x, c, width * 3) == i
  {
    var p := width * 3;
    assert width > 0;
    DivMod(i, p);
    y := i / p;
    var k := i % p;
    DivMod(k, 3);
    x, c := k / 3, k % 3;
    assert width * height * 3 == height * p;
    DivBelow(i, p, height);
    DivBelow(k, 3, width);
  }

  /** The engine's postcondition determines the whole diff buffer: two results that both satisfy it are equal. */
  lemma {:induction false} DiffUpdatedIsDeterministic(before: seq<byte>, after1: seq<byte>, after2: seq<byte>,
                                                      left: seq<byte>, pitchLeft: int, right: seq<byte>, pitchRight: int,
                                                      width: nat, height: nat, split: int)
    requires DiffUpdated(before, after1, left, pitchLeft, right, pitchRight, width, height, split)
    requires DiffUpdated(before, after2, left, pitchLeft, right, pitchRight, width, height, split)
    ensures after1 == after2
  {
    forall i | 0 <= i < |after1|
      ensures after1[i] == after2[i]
    {
      var y, x, c := OffsetCovers(width, height, i);
      assert DiffSample(after1, width, height, y, x, c) == DiffSample(after2, width, height, y, x, c);
    }
  }

  /** With the split at the right edge the engine changes nothing. */
  lemma {:induction false} SplitAtRightEdgeChangesNothing(before: seq<byte>, after: seq<byte>, left: seq<byte>, pitchLeft: int,
                                                          right: seq<byte>, pitchRight: int, width: nat, height: nat)
    requires DiffUpdated(before, after, left, pitchLeft, right, pitchRight, width, height, width)
    ensures after == before
  {
    forall i | 0 <= i < |after|
      ensures after[i] == before[i]
    {
      var y, x, c := OffsetCovers(width, height, i);
      assert DiffSample(after, width, height, y, x, c) == DiffSample(before, width, height, y, x, c);
    }
  }
}
