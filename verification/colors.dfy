/** How the builder packs colors, lights, overlays and texture coordinates
    into 32-bit varying words. Memory is little-endian: the byte stored at
    the lowest address is the word's least significant byte. */
module Colors {
  import opened JavaTypes

  /** Java's `(byte)` cast: the low 8 bits. */
  function Byte(x: int): bv8 {
    (x % 0x100) as bv8
  }

  /** Java's `(short)` cast: the low 16 bits. */
  function Short(x: int): bv16 {
    (x % 0x1_0000) as bv16
  }

  /** The word that four consecutive `memPutByte` stores leave in memory. */
  function PackBytes(b0: bv8, b1: bv8, b2: bv8, b3: bv8): bv32 {
    (b0 as bv32) | ((b1 as bv32) << 8) | ((b2 as bv32) << 16) | ((b3 as bv32) << 24)
  }

  /** The word that two consecutive `memPutShort` stores leave in memory. */
  function PackShorts(s0: bv16, s1: bv16): bv32 {
    (s0 as bv32) | ((s1 as bv32) << 16)
  }

  /** Four byte stores put each byte at its own address: byte `k` of the
      word is bits `8 * k` to `8 * k + 7`. */
  lemma PackBytesStoresEachByte(b0: bv8, b1: bv8, b2: bv8, b3: bv8)
    ensures var w := PackBytes(b0, b1, b2, b3);
      && w & 0xff == b0 as bv32
      && (w >> 8) & 0xff == b1 as bv32
      && (w >> 16) & 0xff == b2 as bv32
      && w >> 24 == b3 as bv32
  {
  }

  /** Two short stores put each short at its own address. */
  lemma PackShortsStoresEachShort(s0: bv16, s1: bv16)
    ensures PackShorts(s0, s1) & 0xffff == s0 as bv32 && PackShorts(s0, s1) >> 16 == s1 as bv32
  {
  }

  /** `FastColor.ARGB32.color`: alpha in the top byte, blue in the bottom one. */
  function Argb32(alpha: bv8, red: bv8, green: bv8, blue: bv8): bv32 {
    ((alpha as bv32) << 24) | ((red as bv32) << 16) | ((green as bv32) << 8) | (blue as bv32)
  }

  /** `FastColor.ABGR32.fromArgb32`: swaps the red and blue bytes. */
  function FromArgb32(argb: bv32): bv32 {
    (argb & 0xff00_ff00) | ((argb & 0x00ff_0000) >> 16) | ((argb & 0xff) << 16)
  }

  /** The full `addVertex` stores a packed ARGB color as the very word that
      `setColor` stores byte by byte for the same channels: red, green, blue
      and alpha at increasing addresses. */
  lemma ColorEncodingsAgree(alpha: bv8, red: bv8, green: bv8, blue: bv8)
    ensures FromArgb32(Argb32(alpha, red, green, blue)) == PackBytes(red, green, blue, alpha)
  {
  }

  /** The Java `int` whose two's complement bits are `w`. */
  function Signed(w: bv32): int {
    if w < 0x8000_0000 then w as int else w as int - 0x1_0000_0000
  }

  /** The `int` that `setColor` leaves in the color word. */
  function PackedColor(red: int, green: int, blue: int, alpha: int): int {
    Signed(PackBytes(Byte(red), Byte(green), Byte(blue), Byte(alpha)))
  }

  /** The `int` that `setUv1` or `setUv2` leaves in its word. */
  function ShortsWord(u: int, v: int): int {
    Signed(PackShorts(Short(u), Short(v)))
  }

  /** `FastColor.ABGR32.fromArgb32` on a Java `int`. */
  function AbgrFromArgb(color: int): int {
    Signed(FromArgb32(Bits(color)))
  }

  /** For a color whose bits pack the channels as ARGB, the full `addVertex`
      and `setColor` leave the same color word. */
  lemma ColorWordsAgree(color: int, red: int, green: int, blue: int, alpha: int)
    requires Bits(color) == Argb32(Byte(alpha), Byte(red), Byte(green), Byte(blue))
    ensures AbgrFromArgb(color) == PackedColor(red, green, blue, alpha)
  {
    ColorEncodingsAgree(Byte(alpha), Byte(red), Byte(green), Byte(blue));
  }
}
