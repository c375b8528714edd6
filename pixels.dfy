/**
 * Byte clamping and the per-channel amplified difference used by the
 * difference engine (display.cpp, clampIntToByteRange, clampIntToByte and
 * the channel arithmetic of update_difference).
 */
module Pixels {

  /** An 8-bit channel value, as stored in an interleaved RGB24 plane. */
  type byte = b: int | 0 <= b < 256

  /** The fixed amplification applied to every channel difference. */
  const Amplification: int := 2

  /** The largest value a channel can hold. */
  const ByteMax: int := 255

  function Abs(v: int): (r: int)
    ensures r >= 0 && (r == v || r == -v)
  {
    if v < 0 then -v else v
  }

  /** Saturates an int to the byte range: values above 255 become 255, values below 0 become 0. */
  function ClampIntToByteRange(v: int): (r: int)
    ensures 0 <= r <= ByteMax
    ensures 0 <= v <= ByteMax ==> r == v
    ensures v > ByteMax ==> r == ByteMax
    ensures v < 0 ==> r == 0
  {
    if v > 255 then 255 else if v < 0 then 0 else v
  }

  /** The same clamp, converted to a byte; the conversion never truncates because the value is already in range. */
  function ClampIntToByte(v: int): (r: byte)
    ensures r as int == ClampIntToByteRange(v)
  {
    ClampIntToByteRange(v) as byte
  }

  /** The diff-buffer value for one channel: the absolute difference, doubled, saturated at 255. */
  function ChannelDiff(l: byte, r: byte): (d: byte)
    ensures d as int == if Abs(l - r) * Amplification > ByteMax then ByteMax else Abs(l - r) * Amplification
  {
    ClampIntToByte(Abs(l as int - r as int) * Amplification)
  }

  /** Equal channels give black; the difference is symmetric in its two inputs. */
  lemma ChannelDiffSymmetric(l: byte, r: byte)
    ensures ChannelDiff(l, r) == ChannelDiff(r, l)
    ensures ChannelDiff(l, l) == 0
  {
  }

  /** A difference of 128 or more saturates; a smaller one is shown doubled exactly. */
  lemma ChannelDiffSaturates(l: byte, r: byte)
    ensures Abs(l - r) >= 128 <==> ChannelDiff(l, r) == 255
    ensures Abs(l - r) < 128 ==> ChannelDiff(l, r) as int == 2 * Abs(l - r)
  {
  }
}
