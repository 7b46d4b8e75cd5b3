/** Compile-time constants of the game and the C++ integer conversions
    that produce the pipe recycling threshold. */
module Config {

  /** The window size; `unsigned` in the source. */
  const WinWidth: nat := 288
  const WinHeight: nat := 512

  /** Speeds (units per second), acceleration (units per second squared),
      the jump velocity and the pipe geometry; `float` in the source. */
  const BgndVelocity: real := 10.0
  const BirdAcceleration: real := 600.0
  const BirdJump: real := -200.0
  const PipeVelocity: real := 70.0
  const PipeSpacing: real := 100.0
  const PipeBounds: real := 200.0

  const TwoTo32: int := 0x1_0000_0000

  type u32 = n: int | 0 <= n < 0x1_0000_0000
  type u16 = n: int | 0 <= n < 0x1_0000

  /** A drawable rectangle: `float` position, `unsigned short` size.
      The texture handle it carries in the source is not modelled. */
  datatype Image = Image(x: real, y: real, w: u16, h: u16)

  /** Unary minus on a 32-bit `unsigned`: wraps modulo 2^32. */
  function NegateUnsigned(u: u32): (r: u32)
    ensures (u + r) % TwoTo32 == 0
  {
    if u == 0 then 0 else TwoTo32 - u
  }

  /** Cast of a 32-bit `unsigned` to `int` on a two's-complement target. */
  function AsInt32(u: u32): (r: int)
    ensures -0x8000_0000 <= r < 0x8000_0000
    ensures (r - u) % TwoTo32 == 0
  {
    if u < 0x8000_0000 then u else u - TwoTo32
  }

  /** C++ integer division by 2, which truncates toward zero: the
      remainder has the sign of the dividend. */
  function TruncHalf(a: int): (r: int)
    ensures a >= 0 ==> 0 <= a - 2 * r <= 1
    ensures a < 0 ==> -1 <= a - 2 * r <= 0
  {
    if a >= 0 then a / 2 else -((-a) / 2)
  }

  /** `(int)-WinWidth / 2`, the x below which a pipe pair is recycled. */
  const RecycleThreshold: int := TruncHalf(AsInt32(NegateUnsigned(WinWidth)))

  lemma RecycleThresholdValue()
    ensures RecycleThreshold == -144
  {
  }
}
