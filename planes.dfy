/**
 * Addressing of interleaved RGB24 planes: channel c of the pixel at column x
 * in row y of a plane with row pitch p sits at byte y * p + x * 3 + c
 * (the pointer arithmetic of display.cpp, update_difference).
 */
module Planes {
  import opened Pixels

  /** Byte offset of channel c of pixel (x, y) in a plane whose rows are pitch bytes apart. */
  function Offset(y: int, x: int, c: int, pitch: int): (offset: int)
  {
    y * pitch + x * 3 + c
  }

  /** The plane holds height rows of width RGB pixels, the rows pitch bytes apart. */
  predicate PlaneFits(length: int, pitch: int, width: int, height: int)
  {
    width >= 0 && height >= 0 && pitch >= 0 &&
    (height == 0 || (height - 1) * pitch + width * 3 <= length)
  }

  /** A pixel coordinate inside a width x height frame, with a channel index. */
  predicate InFrame(y: int, x: int, c: int, width: int, height: int)
  {
    0 <= y < height && 0 <= x < width && 0 <= c < 3
  }

  lemma MulMonotone(a: int, b: int, p: int)
    requires 0 <= a <= b && p >= 0
    ensures a * p <= b * p
  {
    assert b * p == a * p + (b - a) * p;
  }

  lemma {:induction false} OffsetInPlane(length: int, pitch: int, width: int, height: int, y: int, x: int, c: int)
    requires PlaneFits(length, pitch, width, height)
    requires InFrame(y, x, c, width, height)
    ensures 0 <= Offset(y, x, c, pitch) < length
  {
    MulMonotone(y, height - 1, pitch);
    MulMonotone(0, y, pitch);
  }

  /** A frame-sized buffer with the packed pitch width * 3 fits exactly. */
  lemma PackedPlaneFits(width: nat, height: nat)
    ensures PlaneFits(width * height * 3, width * 3, width, height)
    ensures height > 0 ==> (height - 1) * (width * 3) + width * 3 == width * height * 3
  {
    if height > 0 {
      assert (height - 1) * (width * 3) + width * 3 == width * height * 3;
    }
  }

  /** Channel c of pixel (x, y) of a plane. */
  function Sample(plane: seq<byte>, pitch: int, width: int, height: int, y: int, x: int, c: int): (sample: byte)
    requires PlaneFits(|plane|, pitch, width, height)
    requires InFrame(y, x, c, width, height)
  {
    OffsetInPlane(|plane|, pitch, width, height, y, x, c);
    plane[Offset(y, x, c, pitch)]
  }

  /** With a pitch of at least one row, every byte of a row lies before the start of any later row. */
  lemma OffsetBelowLaterRow(pitch: int, width: int, y: int, x: int, c: int, later: int)
    requires width * 3 <= pitch
    requires 0 <= y < later && 0 <= x < width && 0 <= c < 3
    ensures Offset(y, x, c, pitch) < later * pitch
  {
    MulMonotone(y + 1, later, pitch);
    assert (y + 1) * pitch == y * pitch + pitch;
  }

  /** With a pitch of at least one row, distinct pixels and channels occupy distinct bytes. */
  lemma {:induction false} OffsetInjective(pitch: int, width: int, y1: int, x1: int, c1: int, y2: int, x2: int, c2: int)
    requires width * 3 <= pitch
    requires 0 <= y1 && 0 <= x1 < width && 0 <= c1 < 3
    requires 0 <= y2 && 0 <= x2 < width && 0 <= c2 < 3
    requires Offset(y1, x1, c1, pitch) == Offset(y2, x2, c2, pitch)
    ensures y1 == y2 && x1 == x2 && c1 == c2
  {
    if y1 < y2 {
      OffsetBelowLaterRow(pitch, width, y1, x1, c1, y2);
      assert false;
    } else if y2 < y1 {
      OffsetBelowLaterRow(pitch, width, y2, x2, c2, y1);
      assert false;
    }
  }
}
