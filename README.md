# CMSIS-POSIX memory pool and deadline conversion, in Dafny

This project models two parts of the CMSIS-RTOS2-on-POSIX layer:

- **The fixed-block memory pool** (`src/cmsisPosix_MemoryPool.c`). A pool is the class
  `MemoryPool.Pool`. It has a fixed block count and block size, and a block size padded to a
  multiple of 4. Its `used` array holds one flag per slot. Its integer `gate` stands for the
  counting semaphore. A block pointer is modelled as its byte offset from the arena base, so
  block `i` is at offset `i * paddedBlockSize`. A NULL handle is a `null` `Pool?`.
  - `Pool.Valid()` is the pool invariant: `gate == blockCount - CountUsed(used[..])`.
    `New` establishes it. `Alloc` and `Free` preserve it.
  - Because of that invariant, an allocation that passed the gate always finds a free slot.
    The source's branch that returns NULL after a successful wait, without posting the
    semaphore back, is proved dead: see `Alloc` and `SlotFlags.FreeSlotExists`.
  - `Alloc` claims the lowest free slot. `Free` accepts only the start of a slot that is
    handed out, so double frees and stray pointers leave the pool unchanged.
  - The introspection calls are derived from the gate. `GetCount` equals the number of live
    blocks, and `GetCount + GetSpace == blockCount`.
- **The deadline conversion** `cp_timeoutToTimespec` (`src/cmsisPosix_Common.c`). The method
  `Common.TimeoutToTimespec` writes a `Timespec` in the same steps as the C code. It is proved
  equal to the pure function `Common.Deadline`, and the lemmas are stated about that function:
  - the sum of the two fields is conserved;
  - the nanosecond field stays in `[0, 1e9)`;
  - the carry is at most one second;
  - the deadline is monotone in the timeout;
  - with a tick of at most one second (the build-time assertion) and a normalised clock
    reading at least 2^32 seconds below the largest `time_t`, no step overflows `int64_t`.

The clock reading (`clock_gettime`) and the tick length (`CP_CONFIG_NANO_IN_TICK`) are
parameters. `cmsisPosix_Config.h` is not part of this model.

The module `PoolScenario` is a client of the pool whose assertions the verifier proves from
the contracts alone. It covers a pool of four 10-byte blocks:
- a zero-count create gives NULL;
- the blocks are at offsets 0, 12, 24 and 36;
- a fifth allocation gives NULL;
- a free at offset 12 followed by another allocation reuses offset 12;
- a double free and a misaligned free are both rejected.

The module `DeadlineScenario` is a client of the conversion. Its assertion, proved from the
contract, is that 1500 ticks of 1 ms after 10.999999999 s give 12.499999999 s.

Two behaviours of the code that the model records:
- `osMemoryPoolGetName` tests for a NULL handle (line 81), but the branch only evaluates
  `NULL;` (line 83), so line 86 dereferences the handle. See `GetName` under "Left out".
- After a successful wait, the code returns NULL without posting the semaphore if the scan
  finds no free slot (lines 123-136). The model proves that branch unreachable.

## Model

| member | source | states |
|---|---|---|
| Common.AddSpan | src/cmsisPosix_Common.c:21-22 | Adding the seconds and the sub-second rest of a non-negative span separately moves the instant by exactly the span, and grows the nanosecond field by less than one second |
| Common.Normalize | src/cmsisPosix_Common.c:25-29 | The carry step keeps the instant unchanged, brings any non-negative nanosecond field into `[0, 1e9)`, and leaves a normalised value alone |
| Common.Deadline | src/cmsisPosix_Common.c:15-29 | The deadline is `now + timeout * nanoInTick` nanoseconds (conservation). It is never before `now`. It is normalised when `now` is. A timeout of 0 returns `now` unchanged |
| Common.TimeoutToTimespec | src/cmsisPosix_Common.c:12-30 | The in-place updates of `tv_sec` and `tv_nsec` leave the timespec equal to `Deadline(now, timeout, nanoInTick)` |
| Common.TotalNanosFitsInt64 | src/cmsisPosix_Common.c:10-18 | For every `uint32_t` timeout and a tick of at most 1e9 ns, `timeout * nanoInTick` is at most `(2^32 - 1) * 1e9`, which is below the `int64_t` maximum |
| Common.DeadlineFitsInt64 | src/cmsisPosix_Common.c:18-29 | With a normalised clock reading at least 2^32 s below the largest `time_t`, the product, both sums and the carried seconds all fit `int64_t` |
| Common.CarryAtMostOneSecond | src/cmsisPosix_Common.c:22-29 | With a normalised clock reading, the nanosecond field before the carry is in `[0, 2e9)`, so the carry adds exactly one second or none |
| Common.NotLaterIsNanosOrder | src/cmsisPosix_Common.c:25-29 | On normalised timespecs, the field-wise order is the order of the instants they denote, in both directions |
| Common.DeadlineNotBeforeNow | src/cmsisPosix_Common.c:18-29 | The deadline is not earlier than the clock reading, in the field-wise order of a timespec |
| Common.DeadlineMonotone | src/cmsisPosix_Common.c:18-29 | A longer timeout never gives an earlier deadline |
| PoolLayout.PadAsWritten | src/cmsisPosix_MemoryPool.c:38 | For `block_size <= 0xFFFFFFFC`, the `uint32_t` padding is a multiple of 4, at least `block_size`, and less than `block_size + 4` |
| PoolLayout.PadAsWrittenWrapsToZero | src/cmsisPosix_MemoryPool.c:38 | For every `block_size` above `0xFFFFFFFC`, the `uint32_t` padding wraps to 0 |
| PoolLayout.PaddedBlockSize | src/cmsisPosix_MemoryPool.c:37-38 | The padding without wrap-around: a positive multiple of 4 in `[block_size, block_size + 4)` for every positive size |
| PoolLayout.PadAsWrittenAgrees | src/cmsisPosix_MemoryPool.c:38 | Up to `0xFFFFFFFC`, the as-written padding equals the wrap-free one |
| PoolLayout.BlockOffset | src/cmsisPosix_MemoryPool.c:131 | The wrap-free offset of block `i`: divided by the padded size it gives back `i` with no remainder |
| PoolLayout.BlockOffsetAsWrittenCollides | src/cmsisPosix_MemoryPool.c:131 | With three blocks of 2^31 bytes, the `uint32_t` offset of slot 2 wraps to that of slot 0, although the wrap-free offsets differ |
| PoolLayout.BlockOffsetAsWrittenAgrees | src/cmsisPosix_MemoryPool.c:154 | While the arena size is below 2^32, the `uint32_t` offset of every slot equals the wrap-free one |
| PoolLayout.ArenaBytesAsWrittenWraps | src/cmsisPosix_MemoryPool.c:66 | 65536 blocks of 65536 bytes: the `uint32_t` arena size wraps to 0 and cannot hold block 0 |
| PoolLayout.ArenaBytesAsWrittenAgrees | src/cmsisPosix_MemoryPool.c:66 | While `block_count * padded_block_size` is below 2^32, the as-written arena size is the intended one |
| PoolLayout.BlockInArena | src/cmsisPosix_MemoryPool.c:65-66 | The offset of every block `i < block_count` is aligned to the padded size (and to 4 when the padded size is) and ends inside the arena |
| PoolLayout.SlotAt | src/cmsisPosix_MemoryPool.c:152-154 | A pointer that matches a slot gives that slot's index, which is below `block_count`, and the slot's block starts exactly at the pointer |
| PoolLayout.SlotAtBlockOffset | src/cmsisPosix_MemoryPool.c:131-154 | Round trip: the block offset of slot `i` matches slot `i` and no other |
| PoolLayout.BlockOffsetsDistinct | src/cmsisPosix_MemoryPool.c:125-133 | Distinct slots have distinct wrap-free block addresses, so no two live allocations share an address; for the source this holds while the arena is below 2^32 bytes (see `BlockOffsetAsWrittenAgrees`) |
| SlotFlags.CountUsed | src/cmsisPosix_MemoryPool.c:27 | The number of handed-out slots never exceeds the number of flags |
| SlotFlags.FirstFree | src/cmsisPosix_MemoryPool.c:125-134 | The lowest-index scan's stopping point: every earlier flag is set, and the flag found is clear, or the scan ran off the end |
| SlotFlags.CountUsedUpdate | src/cmsisPosix_MemoryPool.c:130-159 | Setting a clear flag adds one to the count, clearing a set flag removes one, and any other update leaves the count unchanged |
| SlotFlags.CountUsedFull | src/cmsisPosix_MemoryPool.c:123-136 | The count equals the slot count exactly when every flag is set |
| SlotFlags.CountUsedEmpty | src/cmsisPosix_MemoryPool.c:63 | The count is zero exactly when every flag is clear, as after `calloc` |
| SlotFlags.FreeSlotExists | src/cmsisPosix_MemoryPool.c:117-136 | While fewer slots are used than exist, the claim scan stops at a real slot. With the pool invariant, a caller the gate admitted always gets a block |
| MemoryPool.Pool.constructor | src/cmsisPosix_MemoryPool.c:46-63 | A new pool has the given count, size and name, and all flags clear. Its gate equals `block_count`, so the invariant holds |
| MemoryPool.Pool.TryWait | src/cmsisPosix_MemoryPool.c:100-103 | A non-blocking wait succeeds exactly when the gate is open, and takes one unit only then |
| MemoryPool.Pool.Wait | src/cmsisPosix_MemoryPool.c:104-107 | An unbounded wait on an open gate takes one unit |
| MemoryPool.Pool.Post | src/cmsisPosix_MemoryPool.c:167-171 | Posting gives one unit back |
| MemoryPool.New | src/cmsisPosix_MemoryPool.c:30-75 | Create returns NULL exactly when the count or the size is 0 or a resource cannot be acquired. Otherwise it returns a fresh valid pool with the given count, size and attribute name, all flags clear and `gate == block_count` |
| MemoryPool.GetName | src/cmsisPosix_MemoryPool.c:77-87 | Returns the name stored at creation, for a non-NULL handle |
| MemoryPool.Alloc | src/cmsisPosix_MemoryPool.c:89-137 | NULL for a NULL handle. Otherwise it returns a block exactly when the gate was open; on refusal nothing changes. An admitted call sets only the lowest clear flag `k`, decrements the gate and returns offset `k * padded_block_size`, which is live, aligned and inside the arena. The invariant is preserved |
| MemoryPool.Free | src/cmsisPosix_MemoryPool.c:139-174 | `osOK` exactly when the pointer is the start of a handed-out slot: then only that flag is cleared and the gate is incremented. Otherwise `osErrorParameter` with nothing changed, as for a NULL handle. The invariant is preserved |
| MemoryPool.GetCapacity | src/cmsisPosix_MemoryPool.c:176-186 | The block count fixed at creation, or 0 for a NULL handle |
| MemoryPool.GetBlockSize | src/cmsisPosix_MemoryPool.c:188-198 | The unpadded block size fixed at creation, or 0 for a NULL handle |
| MemoryPool.GetCount | src/cmsisPosix_MemoryPool.c:200-215 | Though computed from the semaphore, it equals the number of handed-out blocks and is at most `block_count`; 0 for a NULL handle |
| MemoryPool.GetSpace | src/cmsisPosix_MemoryPool.c:217-232 | The semaphore value plus the live-block count is `block_count`, and it is 0 exactly when every slot is used; 0 for a NULL handle |
| MemoryPool.Delete | src/cmsisPosix_MemoryPool.c:234-249 | `osOK` exactly for a non-NULL handle, `osErrorParameter` otherwise |

## Left out

- GetName: requires a non-NULL handle. The NULL check at src/cmsisPosix_MemoryPool.c:83 is an expression statement with no effect, and line 86 then dereferences the handle.
- Alloc: with `osWaitForever`, it requires an open gate. In a single-threaded model nothing could ever post a closed gate, so `sem_wait` would never return.
- Alloc: a bounded wait is modelled as succeeding exactly when the gate is open. No other thread can free a block before the deadline, so the deadline that `cp_timeoutToTimespec` computes (line 111) is not needed. The model does not call `TimeoutToTimespec` from `Alloc`.
- Concurrency: blocking, timed waiting, waiter fairness, and the `pthread_mutex` critical sections are not modelled. Each operation runs to completion on its own, so the invariant is checked between operations, not at every interleaving point.
- `sem_wait`/`sem_timedwait` failing with `EINTR` or `EINVAL`, and `sem_getvalue` failing or reporting a negative value, are not modelled. These are platform behaviours. The `space < 0` branches of `GetCount` and `GetSpace` are therefore absent.
- New: the individual `malloc`, `calloc`, `sem_init` and `pthread_mutex_init` failures, and the unwinding after each one, are one boolean input, `resourcesAvailable`.
- Delete: only its status is modelled. Releasing the semaphore, mutex, arena, flags and handle is foreign allocator work.
- The arena's bytes and real pointer identity are not modelled. A pointer is an integer offset from the arena base, and the pool never reads or writes block contents.
- The lifetime of the attribute's `name` pointer is not modelled. The name is a stored optional string.
- New: the pool uses the wrap-free padding (`PaddedBlockSize`) and arena size (`ArenaBytes`). Block sizes above `0xFFFFFFFC` and arena sizes of 2^32 or more therefore do not reproduce the C wrap-around; see Findings.
- Alloc, Free: block offsets are not reduced modulo 2^32, although the source computes `idx * padded_block_size` in `uint32_t` at lines 131 and 154. So `SlotAt`, `BlockOffsetsDistinct` and the `Alloc`/`Free` contracts describe the source only while `block_count * padded_block_size < 2^32`. Beyond that, the source can hand out one address twice, and can accept a second free of an address that another slot also wraps to; see Findings.
- TimeoutToTimespec: `tv_sec` and `tv_nsec` are unbounded integers. 64-bit overflow freedom is a separate lemma, `DeadlineFitsInt64`, under its stated bounds on the clock reading.
- `clock_gettime` is an input: the clock reading `now` is a parameter. `CP_CONFIG_NANO_IN_TICK` is the parameter `nanoInTick`, bounded by 1e9 as the build-time assertion requires.

## Findings

| source | as written | input that shows it | evidently intended | confidence | as-written member | corrected member |
|---|---|---|---|---|---|---|
| src/cmsisPosix_MemoryPool.c:38 | `4 * ((block_size + 3) / 4)` is computed in `uint32_t`, so `block_size + 3` wraps | `block_size = 0xFFFFFFFD`: the padded size is 0, the arena has 0 bytes, and every block is the arena base | the block size rounded up to a multiple of 4, never smaller than `block_size` (or creation refused) | high, not executed | PoolLayout.PadAsWrittenWrapsToZero | PoolLayout.PaddedBlockSize |
| src/cmsisPosix_MemoryPool.c:66 | `malloc(block_count * padded_block_size)` multiplies in `uint32_t` before widening to `size_t` | `block_count = 65536, block_size = 65536`: the arena has 0 bytes, yet `Alloc` hands out offsets up to 2^32 - 65536 (the block offsets at lines 131 and 154 wrap in the same way; next row) | an arena that holds every block | high, not executed | PoolLayout.ArenaBytesAsWrittenWraps | PoolLayout.BlockInArena |
| src/cmsisPosix_MemoryPool.c:131 | `idx * padded_block_size` is computed in `uint32_t` when a block is handed out (line 131) and when a freed pointer is matched (line 154): the same wrap as line 66 | `block_count = 3, block_size = 0x80000000`: slot 2's offset wraps to 0, so the third `Alloc` returns the arena base, which slot 0 already holds | distinct slots at distinct addresses inside the arena | high, not executed | PoolLayout.BlockOffsetAsWrittenCollides | PoolLayout.BlockOffsetsDistinct |
