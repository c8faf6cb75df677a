/** The BGZF virtual position of noodles-bgzf: a 64-bit value whose upper 48 bits are the
    offset of a compressed block in the file and whose lower 16 bits are an offset into
    that block's uncompressed data (the virtual file offset of section 4.1.1 of the
    SAMv1 specification). */
module BgzfVirtualPosition {
  import opened Wrappers

  datatype VirtualPosition = VirtualPosition(raw: u64)

  /** Largest compressed offset plus one: 2^48. */
  const COMPRESSED_LIMIT: int := 0x1_0000_0000_0000

  /** Largest uncompressed offset plus one: 2^16. */
  const UNCOMPRESSED_LIMIT: int := 0x1_0000

  /** `compressed()`: the raw value shifted right by 16. On an unsigned value a right
      shift by 16 is division by 2^16, rounding down. */
  function Compressed(pos: VirtualPosition): (r: u64)
    ensures r < COMPRESSED_LIMIT
  {
    pos.raw / UNCOMPRESSED_LIMIT
  }

  /** `uncompressed()`: the raw value masked with 0xffff, that is, its remainder modulo
      2^16. */
  function Uncompressed(pos: VirtualPosition): (r: u64)
    ensures r < UNCOMPRESSED_LIMIT
  {
    pos.raw % UNCOMPRESSED_LIMIT
  }

  /** `From<u64> for VirtualPosition`. */
  function FromU64(n: u64): (pos: VirtualPosition)
    ensures Compressed(pos) * UNCOMPRESSED_LIMIT + Uncompressed(pos) == n
  {
    VirtualPosition(n)
  }

  /** `From<VirtualPosition> for u64`. */
  function ToU64(pos: VirtualPosition): (n: u64)
    ensures n == Compressed(pos) * UNCOMPRESSED_LIMIT + Uncompressed(pos)
  {
    pos.raw
  }

  /** Splitting a value into its two offsets and joining them again gives the value back. */
  lemma Recompose(pos: VirtualPosition)
    ensures Compressed(pos) * UNCOMPRESSED_LIMIT + Uncompressed(pos) == pos.raw
  {
  }

  /** u64 -> VirtualPosition -> u64 is the identity, and so is the other way round. */
  lemma RoundTrip(n: u64, pos: VirtualPosition)
    ensures ToU64(FromU64(n)) == n
    ensures FromU64(ToU64(pos)) == pos
  {
  }

  /** The two offsets determine the position: equal offsets mean equal positions. */
  lemma OffsetsDetermine(p: VirtualPosition, q: VirtualPosition)
    requires Compressed(p) == Compressed(q) && Uncompressed(p) == Uncompressed(q)
    ensures p == q
  {
    Recompose(p);
    Recompose(q);
  }

  /** Comparing raw values orders positions by compressed offset first, then by
      uncompressed offset. */
  lemma OrderIsLexicographic(p: VirtualPosition, q: VirtualPosition)
    ensures p.raw < q.raw <==>
      Compressed(p) < Compressed(q) ||
      (Compressed(p) == Compressed(q) && Uncompressed(p) < Uncompressed(q))
  {
    Recompose(p);
    Recompose(q);
  }

  /** The three test vectors of the source. */
  lemma TestVectors()
    ensures Compressed(FromU64(88384945211)) == 1348647
    ensures Uncompressed(FromU64(88384945211)) == 15419
    ensures Compressed(FromU64(188049630896)) == 2869409
    ensures Uncompressed(FromU64(188049630896)) == 42672
    ensures Compressed(FromU64(26155658182977)) == 399103671
    ensures Uncompressed(FromU64(26155658182977)) == 321
    ensures ToU64(FromU64(88384945211)) == 88384945211
    ensures ToU64(FromU64(188049630896)) == 188049630896
    ensures ToU64(FromU64(26155658182977)) == 26155658182977
  {
  }
}
