/** The pool's `used_flags` map as a sequence of booleans, one per slot. */
module SlotFlags {

  /** The number of slots currently handed out. */
  function CountUsed(flags: seq<bool>): (n: nat)
    ensures n <= |flags|
  {
    if flags == [] then 0 else (if flags[0] then 1 else 0) + CountUsed(flags[1..])
  }

  /** The lowest free slot index, or `|flags|` when every slot is used. */
  function FirstFree(flags: seq<bool>): (k: nat)
    ensures k <= |flags|
    ensures k < |flags| ==> !flags[k]
    ensures forall j :: 0 <= j < k ==> flags[j]
  {
    if flags == [] then 0 else if !flags[0] then 0 else 1 + FirstFree(flags[1..])
  }

  /** Changing one flag changes the count by the difference of the old and new flag. */
  lemma {:induction false} CountUsedUpdate(flags: seq<bool>, k: nat, b: bool)
    requires k < |flags|
    ensures CountUsed(flags[k := b]) == CountUsed(flags) - (if flags[k] then 1 else 0) + (if b then 1 else 0)
  {
    if k == 0 {
      assert flags[k := b][1..] == flags[1..];
    } else {
      assert flags[k := b][1..] == flags[1..][k - 1 := b];
      CountUsedUpdate(flags[1..], k - 1, b);
    }
  }

  /** The count reaches the number of slots exactly when every slot is used. */
  lemma {:induction false} CountUsedFull(flags: seq<bool>)
    ensures CountUsed(flags) == |flags| <==> forall j :: 0 <= j < |flags| ==> flags[j]
  {
    if flags != [] {
      CountUsedFull(flags[1..]);
      assert forall j :: 1 <= j < |flags| ==> flags[j] == flags[1..][j - 1];
    }
  }

  /** The count is zero exactly when no slot is used. */
  lemma {:induction false} CountUsedEmpty(flags: seq<bool>)
    ensures CountUsed(flags) == 0 <==> forall j :: 0 <= j < |flags| ==> !flags[j]
  {
    if flags != [] {
      CountUsedEmpty(flags[1..]);
      assert forall j :: 1 <= j < |flags| ==> flags[j] == flags[1..][j - 1];
    }
  }

  /** While fewer slots are used than exist, the lowest-free-index scan finds a slot. */
  lemma FreeSlotExists(flags: seq<bool>)
    requires CountUsed(flags) < |flags|
    ensures FirstFree(flags) < |flags|
  {
    CountUsedFull(flags);
  }
}
