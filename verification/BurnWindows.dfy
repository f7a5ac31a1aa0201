/**
 The burn-height windows of the unlock queries: each block looks at what unlocks after the burn height of
 its predecessor and up to its own.
 */
module BurnWindows {
  /** Burn heights of the canonical blocks, position i for block height i + 1. */
  ghost predicate NonDecreasing(burn: seq<nat>) {
    forall i, j :: 0 <= i < j < |burn| ==> burn[i] <= burn[j]
  }

  /** The first block is its own predecessor. */
  function Previous(burn: seq<nat>, i: nat): nat
    requires i < |burn|
  {
    if i > 0 then burn[i - 1] else burn[i]
  }

  datatype PoxEvent = PoxEvent(handleUnlock: bool, block: nat, unlockHeight: nat)

  /** burnchain_unlock_height <= current AND burnchain_unlock_height > previous */
  predicate UnlocksIn(burn: seq<nat>, i: nat, unlock: nat)
    requires i < |burn|
  {
    Previous(burn, i) < unlock <= burn[i]
  }

  /** burnchain_unlock_height < current AND burnchain_unlock_height >= previous */
  predicate HandledIn(burn: seq<nat>, i: nat, unlock: nat)
    requires i < |burn|
  {
    Previous(burn, i) <= unlock < burn[i]
  }

  /** The row filter of the pox-4 query for block i: rows up to the block, in its window. */
  predicate Selected(burn: seq<nat>, i: nat, e: PoxEvent)
    requires i < |burn|
  {
    e.block <= i && if e.handleUnlock then HandledIn(burn, i, e.unlockHeight) else UnlocksIn(burn, i, e.unlockHeight)
  }

  /** A forced unlock at burn height v is generated at block i. */
  predicate ForcedAt(burn: seq<nat>, i: nat, v: nat)
    requires i < |burn|
  {
    burn[i] > v && Previous(burn, i) <= v
  }

  /** The first position whose burn height reaches h. */
  function Reaching(burn: seq<nat>, h: nat): (i: nat)
    ensures i <= |burn|
    ensures forall j :: 0 <= j < i ==> burn[j] < h
    ensures i < |burn| ==> h <= burn[i]
  {
    if burn == [] then 0
    else if h <= burn[0] then 0
    else
      var i := Reaching(burn[1..], h);
      assert forall j :: 0 < j < i + 1 ==> burn[j] == burn[1..][j - 1];
      i + 1
  }

  /**
   The windows tile: a height in the burn range of the chain, its first burn height excluded, lies in the
   window of exactly one block; any other in none.
   */
  lemma UnlocksOnce(burn: seq<nat>, unlock: nat)
    requires burn != [] && NonDecreasing(burn)
    ensures (exists i: nat :: i < |burn| && UnlocksIn(burn, i, unlock)) <==> burn[0] < unlock <= burn[|burn| - 1]
    ensures forall i: nat, j: nat ::
      i < |burn| && j < |burn| && UnlocksIn(burn, i, unlock) && UnlocksIn(burn, j, unlock) ==> i == j
  {
    if burn[0] < unlock <= burn[|burn| - 1] {
      var i := Reaching(burn, unlock);
      assert UnlocksIn(burn, i, unlock);
    }
    forall i: nat, j: nat | i < j < |burn| && UnlocksIn(burn, i, unlock)
      ensures !UnlocksIn(burn, j, unlock)
    {
      assert burn[i] <= burn[j - 1];
    }
  }

  /** The half-open windows of handled and forced unlocks tile too, with the other end excluded. */
  lemma ForcedOnce(burn: seq<nat>, v: nat)
    requires burn != [] && NonDecreasing(burn)
    ensures (exists i: nat :: i < |burn| && ForcedAt(burn, i, v)) <==> burn[0] <= v < burn[|burn| - 1]
    ensures forall i: nat, j: nat :: i < |burn| && j < |burn| && ForcedAt(burn, i, v) && ForcedAt(burn, j, v) ==> i == j
    ensures forall i: nat :: i < |burn| ==> (ForcedAt(burn, i, v) <==> HandledIn(burn, i, v))
  {
    if burn[0] <= v < burn[|burn| - 1] {
      var i := Reaching(burn, v + 1);
      assert ForcedAt(burn, i, v);
    }
    forall i: nat, j: nat | i < j < |burn| && ForcedAt(burn, i, v)
      ensures !ForcedAt(burn, j, v)
    {
      assert burn[i] <= burn[j - 1];
    }
  }

  ghost predicate SelectedBySome(burn: seq<nat>, e: PoxEvent) {
    exists i: nat :: i < |burn| && Selected(burn, i, e)
  }

  ghost predicate SelectedByOneAtMost(burn: seq<nat>, e: PoxEvent) {
    forall i: nat, j: nat :: i < |burn| && j < |burn| && Selected(burn, i, e) && Selected(burn, j, e) ==> i == j
  }

  /**
   A lock row is selected by exactly one block if it unlocks above the burn height of the block before its
   own, within the chain's range, and by none otherwise: a row that arrives after its window is never seen.
   */
  lemma LockSelectedOnce(burn: seq<nat>, e: PoxEvent)
    requires NonDecreasing(burn) && e.block < |burn| && !e.handleUnlock
    ensures SelectedBySome(burn, e) <==> Previous(burn, e.block) < e.unlockHeight <= burn[|burn| - 1]
    ensures SelectedByOneAtMost(burn, e)
  {
    UnlocksOnce(burn, e.unlockHeight);
    BeforeOwn(burn, e.block);
    if Previous(burn, e.block) < e.unlockHeight <= burn[|burn| - 1] {
      var i: nat :| i < |burn| && UnlocksIn(burn, i, e.unlockHeight);
      assert Selected(burn, i, e);
    }
    if i: nat :| i < |burn| && Selected(burn, i, e) {
      assert e.block < i ==> burn[e.block] <= burn[i - 1];
    }
  }

  /** Such a row: mined at burn height 30 in the block after height 20, it unlocks at 15. */
  lemma LateLockIsNeverSelected()
    ensures !SelectedBySome([10, 20, 30], PoxEvent(false, 2, 15))
  {
    LockSelectedOnce([10, 20, 30], PoxEvent(false, 2, 15));
  }

  /** The same for rows of handle-unlock, whose window includes its start and excludes its end. */
  lemma HandledSelectedOnce(burn: seq<nat>, e: PoxEvent)
    requires NonDecreasing(burn) && e.block < |burn| && e.handleUnlock
    ensures SelectedBySome(burn, e) <==> Previous(burn, e.block) <= e.unlockHeight < burn[|burn| - 1]
    ensures SelectedByOneAtMost(burn, e)
  {
    ForcedOnce(burn, e.unlockHeight);
    BeforeOwn(burn, e.block);
    if Previous(burn, e.block) <= e.unlockHeight < burn[|burn| - 1] {
      var i: nat :| i < |burn| && ForcedAt(burn, i, e.unlockHeight);
      assert Selected(burn, i, e);
    }
    if i: nat :| i < |burn| && Selected(burn, i, e) {
      assert e.block < i ==> burn[e.block] <= burn[i - 1];
    }
  }

  /** Burn heights of earlier blocks do not exceed that of the predecessor. */
  lemma BeforeOwn(burn: seq<nat>, k: nat)
    requires NonDecreasing(burn) && k < |burn|
    ensures burn[0] <= Previous(burn, k) <= burn[k]
    ensures forall i :: 0 <= i < k ==> burn[i] <= Previous(burn, k)
  {
  }

  /** In particular a lock that ends above its own block's burn height unlocks once, after its block. */
  lemma FutureLockUnlocksOnce(burn: seq<nat>, e: PoxEvent)
    requires NonDecreasing(burn) && e.block < |burn| && !e.handleUnlock
    requires burn[e.block] < e.unlockHeight <= burn[|burn| - 1]
    ensures SelectedBySome(burn, e) && SelectedByOneAtMost(burn, e)
    ensures forall i: nat :: i < |burn| && Selected(burn, i, e) ==> e.block < i
  {
    BeforeOwn(burn, e.block);
    LockSelectedOnce(burn, e);
  }
}
