/**
 * The texture helper of the Bonsai visualiser (NSK_IplImageTexture.cs):
 * the bit-smearing NearestPowerOfTwo, the choice of the texture size in
 * Update, and the channel-count to pixel-format switch. OpenGL calls and the
 * floating-point normalisation are not part of this model.
 */
module IplImageTexture {
  import opened Wrappers
  

  /**
   * C# `int`, as its 32-bit two's-complement word: the shifts, the `|` and the
   * wrapping `++` of NearestPowerOfTwo are then the word operations.
   */
  type Int32 = bv32

  const SignBit: Int32 := 0x8000_0000
  const MaxPow2Int32: Int32 := 0x4000_0000  // 2^30, the largest power of two an Int32 holds

  predicate IsNegative(x: Int32) { x >= SignBit }

  /** Signed `<` on Int32. */
  predicate SignedLess(a: Int32, b: Int32) { (a ^ SignBit) < (b ^ SignBit) }

  /** Math.Min on Int32. */
  function Min(a: Int32, b: Int32): (r: Int32)
    ensures !SignedLess(a, r) && !SignedLess(b, r) && (r == a || r == b)
  {
    if SignedLess(b, a) then b else a
  }

  /** C#'s `>>` on `int`: the sign bit is copied in. */
  function ArithShiftRight1(x: Int32): Int32
  {
    (x >> 1) | (x & SignBit)
  }

  predicate IsPowerOfTwo(p: Int32) { p != 0 && p & (p - 1) == 0 }

  /** p is the largest power of two that is at most n. */
  predicate IsFloorPow2(p: Int32, n: Int32) { IsPowerOfTwo(p) && p <= n && n >> 1 < p }

  lemma FloorPow2Step(n: Int32, q: Int32)
    requires n > 1
    requires IsFloorPow2(q, n >> 1)
    ensures IsFloorPow2(q + q, n)
  {
  }

  /** Reference definition, by halving: the largest power of two that is at most n. */
  function FloorPow2(n: Int32): (p: Int32)
    requires n != 0
    ensures IsFloorPow2(p, n)
    decreases n
  {
    if n == 1 then 1
    else
      var q := FloorPow2(n >> 1);
      FloorPow2Step(n, q);
      q + q
  }

  /** The five `n |= n >> k` steps of NearestPowerOfTwo, as one expression. */
  function Smear(m: Int32): Int32
  {
    var s1 := m | (m >> 1);
    var s2 := s1 | (s1 >> 2);
    var s3 := s2 | (s2 >> 4);
    var s4 := s3 | (s3 >> 8);
    s4 | (s4 >> 16)
  }

  /** Smearing sets every bit below the highest set bit: 2q - 1 for q the top bit. */
  lemma SmearOfFloor(q: Int32, m: Int32)
    requires IsFloorPow2(q, m)
    ensures Smear(m) == q + q - 1
  {
  }

  /** Every nonzero word has a largest power of two below it. */
  lemma TopBitOf(m: Int32) returns (q: Int32)
    requires m != 0
    ensures IsFloorPow2(q, m)
  {
    q := FloorPow2(m);
  }

  /** Two largest powers of two at most n are the same. */
  lemma FloorPow2IsUnique(p: Int32, p': Int32, n: Int32)
    requires IsFloorPow2(p, n) && IsFloorPow2(p', n)
    ensures p == p'
  {
    SmearOfFloor(p, n);
    SmearOfFloor(p', n);
  }

  /** The largest power of two at most n is FloorPow2(n). */
  lemma FloorPow2Unique(p: Int32, n: Int32)
    requires IsFloorPow2(p, n)
    ensures FloorPow2(n) == p
  {
    FloorPow2IsUnique(p, FloorPow2(n), n);
  }

  /**
   * NearestPowerOfTwo as written: despite its name it yields the largest
   * power of two that is at most num (NearestInRange), 0 for num <= 0
   * (NearestOfNonPositive), and, because `n++` wraps past Int32.MaxValue,
   * -2^30 for every num above 2^30 (NearestAboveRange). The local `n` that
   * the source updates in place is a chain of values here.
   */
  function NearestPowerOfTwo(num: Int32): Int32
  {
    var n := if num != 0 && !IsNegative(num) then num - 1 else 0;
    Finish(num, Smear(n) + 1)
  }

  /** The tail of NearestPowerOfTwo: `n++` has been done, then `if (n != num) n >>= 1`. */
  function Finish(num: Int32, n: Int32): Int32
  {
    if n != num then ArithShiftRight1(n) else n
  }

  /** NearestPowerOfTwo yields 0 for num <= 0. */
  lemma NearestOfNonPositive(num: Int32)
    requires num == 0 || IsNegative(num)
    ensures NearestPowerOfTwo(num) == 0
  {
  }

  /** Halving 2q when it is not num itself gives q, the largest power of two in num. */
  lemma HalvedDouble(num: Int32, q: Int32)
    requires 1 < num <= MaxPow2Int32 && IsFloorPow2(q, num - 1)
    ensures IsFloorPow2(Finish(num, q + q), num)
  {
  }

  lemma NearestOfPositive(num: Int32)
    requires 0 < num < SignBit
    ensures NearestPowerOfTwo(num) == Finish(num, Smear(num - 1) + 1)
  {
  }

  /** For 0 < num <= 2^30, NearestPowerOfTwo yields the largest power of two at most num. */
  lemma NearestInRange(num: Int32)
    requires 0 < num <= MaxPow2Int32
    ensures IsFloorPow2(NearestPowerOfTwo(num), num)
  {
    NearestOfPositive(num);
    if num != 1 {
      var q := TopBitOf(num - 1);
      SmearOfFloor(q, num - 1);
      HalvedDouble(num, q);
    }
  }

  /** So in that range NearestPowerOfTwo agrees with the halving definition. */
  lemma NearestIsFloorPow2(num: Int32)
    requires 0 < num <= MaxPow2Int32
    ensures NearestPowerOfTwo(num) == FloorPow2(num)
  {
    NearestInRange(num);
    FloorPow2Unique(NearestPowerOfTwo(num), num);
  }

  /** Above 2^30, `n++` wraps to Int32.MinValue and the shift keeps its sign. */
  lemma NearestAboveRange(num: Int32)
    requires MaxPow2Int32 < num < SignBit
    ensures NearestPowerOfTwo(num) == SignBit | MaxPow2Int32
  {
    SmearOfFloor(MaxPow2Int32, num - 1);
  }

  /** A power of two up to 2^30 is left as it is. */
  lemma PowerOfTwoIsFixed(num: Int32)
    requires 0 < num <= MaxPow2Int32 && IsPowerOfTwo(num)
    ensures NearestPowerOfTwo(num) == num
  {
    NearestInRange(num);
    FloorPow2IsUnique(NearestPowerOfTwo(num), num, num);
  }

  /** Pixel formats the texture upload can use. */
  datatype PixelFormat = Luminance | Rg | Bgr | Bgra

  function ChannelCount(f: PixelFormat): int
  {
    match f
    case Luminance => 1
    case Rg => 2
    case Bgr => 3
    case Bgra => 4
  }

  /** The switch in Update; None stands for the ArgumentException. */
  function PixelFormatFor(channels: int): (r: Option<PixelFormat>)
    ensures r.Some? <==> 1 <= channels <= 4
    ensures r.Some? ==> ChannelCount(r.value) == channels
  {
    if channels == 1 then Some(Luminance)
    else if channels == 2 then Some(Rg)
    else if channels == 3 then Some(Bgr)
    else if channels == 4 then Some(Bgra)
    else None
  }

  lemma PixelFormatRoundTrip(f: PixelFormat)
    ensures PixelFormatFor(ChannelCount(f)) == Some(f)
  {
  }

  /** What NearestPowerOfTwo yields for dim, by the reference definition. */
  function RoundedSize(dim: Int32): Int32
  {
    if dim == 0 || IsNegative(dim) then 0
    else if dim <= MaxPow2Int32 then FloorPow2(dim)
    else SignBit | MaxPow2Int32
  }

  /** NearestPowerOfTwo agrees with the reference on every Int32. */
  lemma NearestIsRoundedSize(dim: Int32)
    ensures NearestPowerOfTwo(dim) == RoundedSize(dim)
  {
    if dim == 0 || IsNegative(dim) {
      NearestOfNonPositive(dim);
    } else if dim <= MaxPow2Int32 {
      NearestIsFloorPow2(dim);
    } else {
      NearestAboveRange(dim);
    }
  }

  /** The outcome of the resizing decision in Update. */
  datatype TextureChoice = TextureChoice(resize: bool, width: Int32, height: Int32)

  /**
   * The texture state of NSK_IplImageTexture that Update reads: whether the
   * OpenGL driver supports non-power-of-two textures and its largest texture
   * size, both queried once in the constructor.
   */
  class ImageTexture {
    const nonPowerOfTwo: bool
    const maxTextureSize: Int32

    constructor (nonPowerOfTwo: bool, maxTextureSize: Int32)
      ensures this.nonPowerOfTwo == nonPowerOfTwo && this.maxTextureSize == maxTextureSize
    {
      this.nonPowerOfTwo := nonPowerOfTwo;
      this.maxTextureSize := maxTextureSize;
    }

    /**
     * The resizing decision of Update for an image of the given size:
     * whether the image is resized and, if so, to which texture size.
     */
    function TextureSize(width: Int32, height: Int32): (c: TextureChoice)
      ensures c.resize <==> (!nonPowerOfTwo || SignedLess(maxTextureSize, width) || SignedLess(maxTextureSize, height))
      ensures c.resize ==> !SignedLess(maxTextureSize, c.width) && !SignedLess(maxTextureSize, c.height)
      ensures c.resize ==> c.width == Min(maxTextureSize, RoundedSize(width))
      ensures c.resize ==> c.height == Min(maxTextureSize, RoundedSize(height))
      ensures !c.resize ==> c.width == width && c.height == height
    {
      if !nonPowerOfTwo || SignedLess(maxTextureSize, width) || SignedLess(maxTextureSize, height) then
        NearestIsRoundedSize(width);
        NearestIsRoundedSize(height);
        TextureChoice(true, Min(maxTextureSize, NearestPowerOfTwo(width)), Min(maxTextureSize, NearestPowerOfTwo(height)))
      else
        TextureChoice(false, width, height)
    }
  }
}
