/**
 * The fixed-block memory pool (`osMemoryPoolNew`, `osMemoryPoolAlloc`, `osMemoryPoolFree`,
 * the introspection calls and `osMemoryPoolDelete`) run by a single thread.
 *
 * A block pointer is its byte offset from the arena base. The counting semaphore is the
 * integer `gate`; the mutex around the flag scans is not modelled, since one thread holds
 * the pool at a time.
 */
module MemoryPool {
  import opened CmsisTypes
  import opened PoolLayout
  import opened SlotFlags

  /** `osWaitForever`: the timeout that waits without bound. */
  const WaitForever: Uint32 := 0xFFFF_FFFF

  /** The creation attributes the pool reads: only the optional name. */
  datatype PoolAttr = PoolAttr(name: Option<string>)

  class Pool {
    const name: Option<string>
    const blockCount: nat
    const blockSize: nat
    const paddedBlockSize: nat
    const used: array<bool>
    /** The semaphore's count: the number of further allocations it will admit. */
    var gate: int

    /** The pool's invariant: the gate counts exactly the free slots. */
    ghost predicate Valid()
      reads this, used
    {
      && 0 < blockCount < Uint32Modulus
      && 0 < blockSize < Uint32Modulus
      && paddedBlockSize == PaddedBlockSize(blockSize)
      && used.Length == blockCount
      && gate == blockCount - CountUsed(used[..])
    }

    /** The size of the arena the blocks are carved from. */
    function Arena(): nat
      reads this
    {
      ArenaBytes(blockCount, paddedBlockSize)
    }

    /** The slot a pointer designates, if it is the start of a block. */
    function SlotOf(block: int): Option<nat>
      reads this
      requires paddedBlockSize > 0
    {
      SlotAt(block, paddedBlockSize, blockCount)
    }

    /** `block` is the start of a slot that is currently handed out. */
    ghost predicate IsLive(block: int)
      reads this, used
      requires Valid()
    {
      SlotOf(block).Some? && used[SlotOf(block).value]
    }

    /** The fields `osMemoryPoolNew` fills in once its resources are acquired. */
    constructor (blockCount: Uint32, blockSize: Uint32, name: Option<string>)
      requires 0 < blockCount && 0 < blockSize
      ensures Valid() && fresh(used)
      ensures this.name == name && this.blockCount == blockCount && this.blockSize == blockSize
      ensures forall i :: 0 <= i < blockCount ==> !used[i]
      ensures gate == blockCount
    {
      gate := blockCount;
      this.name := name;
      this.blockCount := blockCount;
      this.blockSize := blockSize;
      paddedBlockSize := PaddedBlockSize(blockSize);
      used := new bool[blockCount](_ => false);
      new;
      CountUsedEmpty(used[..]);
    }

    /** `sem_trywait`: take one unit of the gate if it is open. */
    method TryWait() returns (admitted: bool)
      modifies this
      ensures admitted == (old(gate) > 0)
      ensures gate == if admitted then old(gate) - 1 else old(gate)
    {
      admitted := gate > 0;
      if admitted {
        gate := gate - 1;
      }
    }

    /** `sem_wait`, for a gate that is open: with one thread, a closed gate would never reopen. */
    method Wait()
      requires gate > 0
      modifies this
      ensures gate == old(gate) - 1
    {
      gate := gate - 1;
    }

    /** `sem_post`. */
    method Post()
      modifies this
      ensures gate == old(gate) + 1
    {
      gate := gate + 1;
    }
  }

  /**
   * `osMemoryPoolNew`. `resourcesAvailable` says whether every `malloc`, `calloc`, `sem_init`
   * and `pthread_mutex_init` succeeds; when one fails, the source releases what it acquired
   * and returns NULL.
   */
  method New(blockCount: Uint32, blockSize: Uint32, attr: Option<PoolAttr>, resourcesAvailable: bool)
    returns (mp: Pool?)
    ensures mp == null <==> blockCount == 0 || blockSize == 0 || !resourcesAvailable
    ensures mp != null ==> fresh(mp) && fresh(mp.used) && mp.Valid()
    ensures mp != null ==> mp.blockCount == blockCount && mp.blockSize == blockSize
    ensures mp != null ==> mp.name == (if attr.Some? then attr.value.name else None)
    ensures mp != null ==> mp.gate == blockCount && forall i :: 0 <= i < blockCount ==> !mp.used[i]
  {
    if blockCount == 0 || blockSize == 0 {
      return null;
    }
    if !resourcesAvailable {
      return null;
    }
    var name := if attr.Some? then attr.value.name else None;
    mp := new Pool(blockCount, blockSize, name);
  }

  /** `osMemoryPoolGetName`. The source dereferences the handle even when it is NULL. */
  method GetName(mp: Pool) returns (name: Option<string>)
    ensures name == mp.name
  {
    name := mp.name;
  }

  /**
   * `osMemoryPoolAlloc`: pass the gate under the wait policy `timeout` selects, then claim
   * the lowest free slot and return its block's offset.
   */
  method Alloc(mp: Pool?, timeout: Uint32) returns (block: Option<nat>)
    requires mp != null ==> mp.Valid()
    requires mp != null && timeout == WaitForever ==> mp.gate > 0
    modifies if mp == null then {} else {mp, mp.used}
    ensures mp == null ==> block == None
    ensures mp != null ==> mp.Valid()
    ensures mp != null ==> (block.Some? <==> old(mp.gate) > 0)
    ensures mp != null && block == None ==> mp.used[..] == old(mp.used[..]) && mp.gate == old(mp.gate)
    ensures mp != null && block.Some? ==>
      var k := FirstFree(old(mp.used[..]));
      && k < mp.blockCount
      && block.value == BlockOffset(k, mp.paddedBlockSize)
      && mp.used[..] == old(mp.used[..])[k := true]
      && mp.gate == old(mp.gate) - 1
    ensures mp != null && block.Some? ==>
      && mp.IsLive(block.value)
      && block.value % mp.paddedBlockSize == 0
      && block.value + mp.paddedBlockSize <= mp.Arena()
  {
    if mp == null {
      return None;
    }
    var admitted: bool;
    if timeout == 0 {
      admitted := mp.TryWait();
    } else if timeout == WaitForever {
      mp.Wait();
      admitted := true;
    } else {
      // sem_timedwait: no other thread can post before the deadline, so it succeeds
      // exactly when an immediate attempt would.
      admitted := mp.TryWait();
    }
    if !admitted {
      return None;
    }

    block := None;
    var idx := 0;
    while idx < mp.blockCount
      invariant 0 <= idx <= mp.blockCount
      invariant block == None
      invariant mp.used[..] == old(mp.used[..])
      invariant forall j :: 0 <= j < idx ==> mp.used[j]
    {
      if !mp.used[idx] {
        mp.used[idx] := true;
        block := Some(BlockOffset(idx, mp.paddedBlockSize));
        break;
      }
      idx := idx + 1;
    }
    if block == None {
      // The source returns NULL here without posting the gate back; the gate admitted
      // this claim, so a slot was free and the scan stopped at it.
      FreeSlotExists(old(mp.used[..]));
      assert false;
    }
    CountUsedUpdate(old(mp.used[..]), idx, true);
    SlotAtBlockOffset(idx, mp.paddedBlockSize, mp.blockCount);
    BlockInArena(idx, mp.paddedBlockSize, mp.blockCount);
  }

  /**
   * `osMemoryPoolFree`: scan for the slot whose block starts at `block`; clear it if it is
   * handed out and only then post the gate. Any other pointer is rejected.
   */
  method Free(mp: Pool?, block: int) returns (status: Status)
    requires mp != null ==> mp.Valid()
    modifies if mp == null then {} else {mp, mp.used}
    ensures mp == null ==> status == ErrorParameter
    ensures mp != null ==> mp.Valid()
    ensures mp != null ==> (status == Ok <==> old(mp.IsLive(block)))
    ensures mp != null && status == Ok ==>
      && mp.used[..] == old(mp.used[..])[mp.SlotOf(block).value := false]
      && mp.gate == old(mp.gate) + 1
    ensures mp != null && status != Ok ==>
      status == ErrorParameter && mp.used[..] == old(mp.used[..]) && mp.gate == old(mp.gate)
  {
    if mp == null {
      return ErrorParameter;
    }
    status := ErrorParameter;
    var idx := 0;
    while idx < mp.blockCount
      invariant 0 <= idx <= mp.blockCount
      invariant status == ErrorParameter
      invariant mp.used[..] == old(mp.used[..])
      invariant forall j :: 0 <= j < idx ==> !(block == BlockOffset(j, mp.paddedBlockSize) && mp.used[j])
    {
      if block == BlockOffset(idx, mp.paddedBlockSize) {
        if mp.used[idx] {
          mp.used[idx] := false;
          status := Ok;
          break;
        }
      }
      idx := idx + 1;
    }
    if status == Ok {
      SlotAtBlockOffset(idx, mp.paddedBlockSize, mp.blockCount);
      CountUsedUpdate(old(mp.used[..]), idx, false);
      mp.Post();
    }
  }

  /** `osMemoryPoolGetCapacity`: the slot count, or 0 for a NULL handle. */
  method GetCapacity(mp: Pool?) returns (n: nat)
    ensures n == if mp == null then 0 else mp.blockCount
  {
    if mp == null {
      return 0;
    }
    n := mp.blockCount;
  }

  /** `osMemoryPoolGetBlockSize`: the requested (unpadded) block size, or 0 for a NULL handle. */
  method GetBlockSize(mp: Pool?) returns (n: nat)
    ensures n == if mp == null then 0 else mp.blockSize
  {
    if mp == null {
      return 0;
    }
    n := mp.blockSize;
  }

  /** `osMemoryPoolGetCount`: read from the gate, it is the number of blocks handed out. */
  method GetCount(mp: Pool?) returns (n: nat)
    requires mp != null ==> mp.Valid()
    ensures mp == null ==> n == 0
    ensures mp != null ==> n == CountUsed(mp.used[..]) && n <= mp.blockCount
  {
    if mp == null {
      return 0;
    }
    n := mp.blockCount - mp.gate;
  }

  /** `osMemoryPoolGetSpace`: the gate's count, which is the number of free slots. */
  method GetSpace(mp: Pool?) returns (n: nat)
    requires mp != null ==> mp.Valid()
    ensures mp == null ==> n == 0
    ensures mp != null ==> n + CountUsed(mp.used[..]) == mp.blockCount
    ensures mp != null ==> (n == 0 <==> forall i :: 0 <= i < mp.blockCount ==> mp.used[i])
  {
    if mp == null {
      return 0;
    }
    CountUsedFull(mp.used[..]);
    n := mp.gate;
  }

  /** `osMemoryPoolDelete`: only its status; releasing the resources is not modelled. */
  method Delete(mp: Pool?) returns (status: Status)
    ensures status == Ok <==> mp != null
    ensures status != Ok ==> status == ErrorParameter
  {
    if mp == null {
      return ErrorParameter;
    }
    status := Ok;
  }
}

/** A client of the pool, using only the contracts above: four blocks of ten bytes. */
module PoolScenario {
  import opened CmsisTypes
  import opened MemoryPool
  import opened SlotFlags

  /** A pool of zero blocks is refused. */
  method ZeroCountRefused()
  {
    var none := New(0, 10, None, true);
    assert none == null;
  }

  /** Four blocks of ten bytes are padded to 12 and handed out in order; a fifth request is refused. */
  method FillFourBlocksOfTen() returns (mp: Pool)
    ensures fresh(mp) && fresh(mp.used)
    ensures mp.Valid() && mp.blockCount == 4 && mp.paddedBlockSize == 12
    ensures mp.used[..] == [true, true, true, true]
  {
    var p := New(4, 10, Some(PoolAttr(None)), true);
    mp := p;
    assert mp.paddedBlockSize == 12 && mp.Arena() == 48;
    assert mp.used[..] == [false, false, false, false];
    var a0 := Alloc(mp, 0);
    assert a0 == Some(0) && mp.used[..] == [true, false, false, false];
    var a1 := Alloc(mp, 0);
    assert a1 == Some(12) && mp.used[..] == [true, true, false, false];
    var a2 := Alloc(mp, 0);
    assert a2 == Some(24) && mp.used[..] == [true, true, true, false];
    var a3 := Alloc(mp, 0);
    assert a3 == Some(36) && mp.used[..] == [true, true, true, true];
    var a4 := Alloc(mp, 0);
    assert a4 == None;
  }

  /** On the full pool: stray and double frees are refused, and the freed slot is the next one handed out. */
  method FreeAndReuse()
  {
    var mp := FillFourBlocksOfTen();
    var bad := Free(mp, 13);
    assert bad == ErrorParameter;
    var ok := Free(mp, 12);
    assert ok == Ok && mp.used[..] == [true, false, true, true];
    var twice := Free(mp, 12);
    assert twice == ErrorParameter && mp.used[..] == [true, false, true, true];
    var space := GetSpace(mp);
    assert CountUsed([true, false, true, true]) == 3;
    assert space == 1;
    var again := Alloc(mp, 100);
    assert again == Some(12);
    space := GetSpace(mp);
    assert space == 0;
    var status := Delete(mp);
    assert status == Ok;
  }
}
