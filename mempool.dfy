/**
 * The LPC176x bump allocator (src/lpc176x/mempool.c).  A pool is an
 * 8-byte header (`next`, `end`) placed at the start of its memory region,
 * followed by the space it hands out in 4-byte granules.  Addresses are
 * modelled as naturals: the pointer additions are unbounded, while the
 * `size_t` subtraction of `pool_create` wraps as in C.
 */
module Mempool {
  import opened Wrappers

  /** `sizeof(POOL)`: two 32-bit pointers. */
  const HEADER_SIZE: nat := 8

  /** `size` rounded down to a multiple of 4 (`& ~3`). */
  function RoundDown4(size: nat): (r: nat)
    ensures r % 4 == 0 && r <= size < r + 4
  {
    size / 4 * 4
  }

  /** A `size_t` holds values below 2^32. */
  const SIZE_MOD: nat := 0x1_0000_0000

  /** The pool's space, `(size - sizeof(POOL)) & ~3` in 32-bit unsigned arithmetic. */
  function SpaceOf(size: nat): (r: nat)
    requires size < SIZE_MOD
    ensures r % 4 == 0 && r < SIZE_MOD
    ensures size >= HEADER_SIZE ==> r <= size - HEADER_SIZE < r + 4
    ensures size < HEADER_SIZE ==> r >= SIZE_MOD - HEADER_SIZE - 3
  {
    RoundDown4((size as int - HEADER_SIZE) % SIZE_MOD)
  }

  /** A region smaller than the header makes the pool claim nearly all of the address space. */
  lemma TinyRegionWraps()
    ensures SpaceOf(0) == 0xFFFF_FFF8 && SpaceOf(7) == 0xFFFF_FFFC
  {
  }

  /** `(size + 3) & ~3`: rounded up to a multiple of 4. */
  function RoundUp4(size: nat): (r: nat)
    ensures r % 4 == 0 && size <= r < size + 4
  {
    (size + 3) / 4 * 4
  }

  /** A request that fits in a multiple-of-4 space still fits after rounding up, so checking before rounding is safe. */
  lemma RoundedRequestFits(size: nat, available: nat)
    requires available % 4 == 0 && size <= available
    ensures RoundUp4(size) <= available
  {
  }

  /** A block handed out: its address and its rounded length. */
  datatype Block = Block(addr: nat, len: nat)

  /** The blocks lie end to end from `start`, the last one ending at `top`. */
  ghost predicate Tiled(blocks: seq<Block>, start: nat, top: nat)
    decreases |blocks|
  {
    if |blocks| == 0 then start == top
    else var b := blocks[|blocks| - 1];
      b.addr + b.len == top && Tiled(blocks[..|blocks| - 1], start, b.addr)
  }

  /** Tiled blocks are pairwise disjoint, in increasing address order, and inside `[start, top]`. */
  lemma {:induction false} TiledDisjoint(blocks: seq<Block>, start: nat, top: nat)
    requires Tiled(blocks, start, top)
    ensures forall i | 0 <= i < |blocks| :: start <= blocks[i].addr && blocks[i].addr + blocks[i].len <= top
    ensures forall i, j | 0 <= i < j < |blocks| :: blocks[i].addr + blocks[i].len <= blocks[j].addr
    decreases |blocks|
  {
    if |blocks| > 0 {
      var n := |blocks| - 1;
      TiledDisjoint(blocks[..n], start, blocks[n].addr);
      assert forall i | 0 <= i < n :: blocks[..n][i] == blocks[i];
    }
  }

  lemma TiledExtend(blocks: seq<Block>, start: nat, top: nat, len: nat)
    requires Tiled(blocks, start, top)
    ensures Tiled(blocks + [Block(top, len)], start, top + len)
  {
    assert (blocks + [Block(top, len)])[..|blocks|] == blocks;
  }

  /** A pool header and the blocks it has handed out. */
  class Pool {
    /** The address of the header, which `pool_create` returns. */
    const location: nat
    var next: nat
    var end: nat
    ghost var blocks: seq<Block>

    /** The next free byte stays within the pool, 4-byte spaced from the first, and the blocks tile what lies before it. */
    ghost predicate Valid()
      reads this
    {
      location + HEADER_SIZE <= next <= end &&
      (end - next) % 4 == 0 &&
      Tiled(blocks, location + HEADER_SIZE, next) &&
      forall i | 0 <= i < |blocks| :: blocks[i].len % 4 == 0
    }

    /**
     * `pool_create`: the header at `location`, the space after it rounded
     * down to 4 bytes.  The subtraction is in `size_t`, so a region smaller
     * than the header wraps to a space of nearly 4 GiB.
     */
    constructor (loc: nat, size: nat)
      requires size < SIZE_MOD
      ensures Valid()
      ensures location == loc && next == loc + HEADER_SIZE
      ensures end == next + SpaceOf(size) && blocks == []
      ensures size >= HEADER_SIZE ==> end <= loc + size && loc + size < end + 4
      ensures size < HEADER_SIZE ==> end - next >= SIZE_MOD - HEADER_SIZE - 3
    {
      location := loc;
      next := loc + HEADER_SIZE;
      end := loc + HEADER_SIZE + SpaceOf(size);
      blocks := [];
    }

    /** `pool_available`. */
    function Available(): (n: nat)
      reads this
      requires Valid()
      ensures n % 4 == 0 && n == end - next
    {
      end - next
    }

    /** `pool_alloc`: NULL (`None`) when the request does not fit, otherwise the old `next`, advanced by the rounded size. */
    method Alloc(size: nat) returns (mem: Option<nat>)
      requires Valid()
      modifies this`next, this`blocks
      ensures Valid()
      ensures mem.None? <==> old(Available()) < size
      ensures mem.None? ==> next == old(next) && blocks == old(blocks)
      ensures mem.Some? ==> mem.value == old(next) && next == old(next) + RoundUp4(size)
      ensures mem.Some? ==> blocks == old(blocks) + [Block(old(next), RoundUp4(size))]
    {
      if Available() < size {
        return None;
      }
      var rounded := RoundUp4(size);
      RoundedRequestFits(size, Available());
      mem := Some(next);
      TiledExtend(blocks, location + HEADER_SIZE, next, rounded);
      blocks := blocks + [Block(next, rounded)];
      next := next + rounded;
    }

    /** Whatever has been handed out so far occupies disjoint 4-byte aligned blocks between the header and `next`. */
    lemma BlocksDisjoint()
      requires Valid()
      ensures forall i | 0 <= i < |blocks| :: location + HEADER_SIZE <= blocks[i].addr && blocks[i].addr + blocks[i].len <= next
      ensures forall i, j | 0 <= i < j < |blocks| :: blocks[i].addr + blocks[i].len <= blocks[j].addr
      ensures forall i | 0 <= i < |blocks| :: (blocks[i].addr - location - HEADER_SIZE) % 4 == 0
    {
      TiledDisjoint(blocks, location + HEADER_SIZE, next);
      TiledAligned(blocks, location + HEADER_SIZE, next);
    }
  }

  /** With every length a multiple of 4, every block starts a multiple of 4 bytes after `start`. */
  lemma {:induction false} TiledAligned(blocks: seq<Block>, start: nat, top: nat)
    requires Tiled(blocks, start, top)
    requires forall i | 0 <= i < |blocks| :: blocks[i].len % 4 == 0
    ensures top >= start && (top - start) % 4 == 0
    ensures forall i | 0 <= i < |blocks| :: blocks[i].addr >= start && (blocks[i].addr - start) % 4 == 0
    decreases |blocks|
  {
    if |blocks| > 0 {
      var n := |blocks| - 1;
      assert forall i | 0 <= i < n :: blocks[..n][i] == blocks[i];
      TiledAligned(blocks[..n], start, blocks[n].addr);
    }
  }
}
