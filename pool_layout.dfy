/**
 * Arena layout of a fixed-block pool: the padded block size, the arena size and the
 * correspondence between a slot index and the byte offset of its block.
 */
module PoolLayout {
  import opened CmsisTypes

  /** The largest block size whose padding does not wrap in `uint32_t`. */
  const MaxPaddable: int := 0xFFFF_FFFC

  /** The padding `4 * ((block_size + 3) / 4)` as written: `block_size + 3` wraps modulo 2^32. */
  function PadAsWritten(blockSize: Uint32): (p: Uint32)
    ensures blockSize <= MaxPaddable ==> p % 4 == 0 && blockSize <= p < blockSize + 4
  {
    4 * (((blockSize + 3) % Uint32Modulus) / 4)
  }

  /** Above `MaxPaddable` the as-written padding collapses to 0, so every block starts at the arena base. */
  lemma PadAsWrittenWrapsToZero(blockSize: Uint32)
    requires MaxPaddable < blockSize
    ensures PadAsWritten(blockSize) == 0 < blockSize
  {
  }

  /** The padding computed without wrap-around: the block size rounded up to a multiple of 4. */
  function PaddedBlockSize(blockSize: nat): (p: nat)
    ensures p % 4 == 0 && blockSize <= p < blockSize + 4
    ensures blockSize > 0 ==> p > 0
  {
    4 * ((blockSize + 3) / 4)
  }

  /** Up to `MaxPaddable` the as-written padding is the intended one. */
  lemma PadAsWrittenAgrees(blockSize: Uint32)
    requires blockSize <= MaxPaddable
    ensures PadAsWritten(blockSize) == PaddedBlockSize(blockSize)
  {
  }

  /** The size passed to `malloc` as written: `block_count * padded_block_size` in `uint32_t`. */
  function ArenaBytesAsWritten(blockCount: Uint32, padded: Uint32): Uint32 {
    (blockCount * padded) % Uint32Modulus
  }

  /** The intended arena size: one padded block per slot. */
  function ArenaBytes(blockCount: nat, padded: nat): nat {
    blockCount * padded
  }

  /**
   * The byte offset of block `i` from the arena base, without wrap-around. Dividing it by
   * the padded size gives `i` back with no remainder.
   */
  function BlockOffset(i: nat, padded: nat): (o: nat)
    ensures padded > 0 ==> o / padded == i && o % padded == 0
  {
    if padded > 0 then
      var o := i * padded;
      assert o == (o / padded) * padded + o % padded && 0 <= o % padded < padded;
      assert (i - o / padded) * padded == i * padded - (o / padded) * padded;
      SmallMultipleIsZero(i - o / padded, padded);
      o
    else
      i * padded
  }

  /** The offset `idx * padded_block_size` as written: a `uint32_t` product, reduced modulo 2^32. */
  function BlockOffsetAsWritten(i: Uint32, padded: Uint32): Uint32 {
    (i * padded) % Uint32Modulus
  }

  /**
   * Three blocks of 2^31 bytes: the as-written offset of slot 2 wraps to that of slot 0,
   * so two live allocations share an address, although the intended offsets differ.
   */
  lemma BlockOffsetAsWrittenCollides()
    ensures BlockOffsetAsWritten(2, 0x8000_0000) == BlockOffsetAsWritten(0, 0x8000_0000) == 0
    ensures BlockOffset(2, 0x8000_0000) != BlockOffset(0, 0x8000_0000)
  {
  }

  /** While the arena size fits in `uint32_t`, every as-written block offset is the intended one. */
  lemma BlockOffsetAsWrittenAgrees(i: Uint32, padded: Uint32, blockCount: nat)
    requires i < blockCount && padded > 0
    requires ArenaBytes(blockCount, padded) < Uint32Modulus
    ensures BlockOffsetAsWritten(i, padded) == BlockOffset(i, padded)
  {
    BlockInArena(i, padded, blockCount);
  }

  /** 65536 blocks of 65536 bytes: the as-written arena size wraps to 0 and not even block 0 fits. */
  lemma ArenaBytesAsWrittenWraps()
    ensures ArenaBytes(0x1_0000, 0x1_0000) == Uint32Modulus
    ensures ArenaBytesAsWritten(0x1_0000, 0x1_0000) == 0
    ensures BlockOffset(0, 0x1_0000) + 0x1_0000 > ArenaBytesAsWritten(0x1_0000, 0x1_0000)
  {
  }

  /** While the product fits in `uint32_t` the as-written arena size is the intended one. */
  lemma ArenaBytesAsWrittenAgrees(blockCount: Uint32, padded: Uint32)
    requires ArenaBytes(blockCount, padded) < Uint32Modulus
    ensures ArenaBytesAsWritten(blockCount, padded) == ArenaBytes(blockCount, padded)
  {
  }

  /** Every block of the intended arena is aligned to the padded size and lies inside the arena. */
  lemma BlockInArena(i: nat, padded: nat, blockCount: nat)
    requires i < blockCount && padded > 0
    ensures BlockOffset(i, padded) % padded == 0
    ensures BlockOffset(i, padded) + padded <= ArenaBytes(blockCount, padded)
    ensures padded % 4 == 0 ==> BlockOffset(i, padded) % 4 == 0
  {
    assert ArenaBytes(blockCount, padded) == BlockOffset(i, padded) + (blockCount - i) * padded;
    assert (blockCount - i) * padded >= padded by {
      assert (blockCount - i) * padded == padded + (blockCount - i - 1) * padded;
    }
    if padded % 4 == 0 {
      assert BlockOffset(i, padded) == 4 * (i * (padded / 4));
    }
  }

  /**
   * The slot whose block starts at `offset`, if any: the index a free scan that compares
   * `arena + idx * padded_block_size` against the pointer would stop at.
   */
  function SlotAt(offset: int, padded: nat, blockCount: nat): (r: Option<nat>)
    requires padded > 0
    ensures r.Some? ==> r.value < blockCount && BlockOffset(r.value, padded) == offset
  {
    if 0 <= offset && offset % padded == 0 && offset / padded < blockCount then
      Some(offset / padded)
    else
      None
  }

  /** The offset of block `i` leads back to slot `i`. */
  lemma SlotAtBlockOffset(i: nat, padded: nat, blockCount: nat)
    requires i < blockCount && padded > 0
    ensures SlotAt(BlockOffset(i, padded), padded, blockCount) == Some(i)
  {
  }

  /** A multiple of `p` in `[0, p)` is zero. */
  lemma SmallMultipleIsZero(k: int, p: int)
    requires p > 0 && 0 <= k * p < p
    ensures k == 0
  {
  }

  /** Distinct slots have distinct block offsets, so no two live allocations share an address. */
  lemma BlockOffsetsDistinct(i: nat, j: nat, padded: nat, blockCount: nat)
    requires i < blockCount && j < blockCount && i != j && padded > 0
    ensures BlockOffset(i, padded) != BlockOffset(j, padded)
  {
    SlotAtBlockOffset(i, padded, blockCount);
    SlotAtBlockOffset(j, padded, blockCount);
  }
}
