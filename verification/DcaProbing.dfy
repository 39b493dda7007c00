/** Where a schedule lands when the blocks it asks for are full. */
module DcaProbing {
  import opened Common
  import opened DcaModel

  predicate HasRoom(lists: map<Block, seq<Id>>, maxPerBlock: nat, b: Block) {
    |IdsAt(lists, b)| < maxPerBlock
  }

  /** `b` is `2^i` to `2^(i+1) - 1` blocks after `a`, or the last block number if that is nearer. */
  predicate Hop(a: Block, b: Block, i: nat) {
    b <= U32_MAX && b <= a + 2 * Pow2(i) - 1 && (a + Pow2(i) <= b || b == U32_MAX)
  }

  /** Eleven blocks to try, from the requested one on, each a random hop after the one before. */
  ghost predicate Probing(probes: seq<Block>, block: Block) {
    && |probes| == RESCHEDULING_ATTEMPTS + 1
    && probes[0] == block
    && forall i :: 0 <= i < RESCHEDULING_ATTEMPTS ==> Hop(probes[i], probes[i + 1], i)
  }

  /** The first of the blocks that has room, or None if all are full. */
  ghost predicate FirstWithRoom(lists: map<Block, seq<Id>>, maxPerBlock: nat, probes: seq<Block>, r: Option<Block>) {
    match r
    case None => forall i :: 0 <= i < |probes| ==> !HasRoom(lists, maxPerBlock, probes[i])
    case Some(b) =>
      HasRoom(lists, maxPerBlock, b) &&
      exists i :: 0 <= i < |probes| && probes[i] == b && forall j :: 0 <= j < i ==> !HasRoom(lists, maxPerBlock, probes[j])
  }

  /* ---- the probes of given draws ---- */

  ghost function Probes(block: Block, draws: seq<nat>, i: nat): (probes: seq<Block>)
    requires i <= RESCHEDULING_ATTEMPTS
    ensures |probes| == RESCHEDULING_ATTEMPTS + 1 - i && probes[0] == block
    decreases RESCHEDULING_ATTEMPTS - i
  {
    if i == RESCHEDULING_ATTEMPTS then [block]
    else [block] + Probes(SatAdd(block, Delay(draws, i), U32_MAX), draws, i + 1)
  }

  lemma {:induction false} ProbesHop(block: Block, draws: seq<nat>, i: nat, k: nat)
    requires block <= U32_MAX && i <= RESCHEDULING_ATTEMPTS && k < RESCHEDULING_ATTEMPTS - i
    ensures Hop(Probes(block, draws, i)[k], Probes(block, draws, i)[k + 1], i + k)
    decreases k
  {
    hide Pow2;
    if k > 0 {
      ProbesHop(SatAdd(block, Delay(draws, i), U32_MAX), draws, i + 1, k - 1);
    }
  }

  lemma FirstOfMore(lists: map<Block, seq<Id>>, maxPerBlock: nat, block: Block, rest: seq<Block>, r: Option<Block>)
    requires !HasRoom(lists, maxPerBlock, block) && FirstWithRoom(lists, maxPerBlock, rest, r)
    ensures FirstWithRoom(lists, maxPerBlock, [block] + rest, r)
  {
    var probes := [block] + rest;
    if r.Some? {
      var i :| 0 <= i < |rest| && rest[i] == r.value && forall j :: 0 <= j < i ==> !HasRoom(lists, maxPerBlock, rest[j]);
      assert probes[i + 1] == r.value;
      forall j | 0 <= j < i + 1 ensures !HasRoom(lists, maxPerBlock, probes[j]) {
        if j > 0 {
          assert probes[j] == rest[j - 1];
        }
      }
    }
  }

  lemma {:induction false} FreeBlockTakesFirst(lists: map<Block, seq<Id>>, maxPerBlock: nat, block: Block, draws: seq<nat>, i: nat)
    requires i <= RESCHEDULING_ATTEMPTS
    ensures FirstWithRoom(lists, maxPerBlock, Probes(block, draws, i), FreeBlock(lists, maxPerBlock, block, draws, i))
    decreases RESCHEDULING_ATTEMPTS - i
  {
    hide Pow2;
    if HasRoom(lists, maxPerBlock, block) {
      assert Probes(block, draws, i)[0] == block;
    } else if i < RESCHEDULING_ATTEMPTS {
      var next := SatAdd(block, Delay(draws, i), U32_MAX);
      FreeBlockTakesFirst(lists, maxPerBlock, next, draws, i + 1);
      FirstOfMore(lists, maxPerBlock, block, Probes(next, draws, i + 1), FreeBlock(lists, maxPerBlock, next, draws, i + 1));
    }
  }

  /**
   * Planning tries eleven blocks, the requested one first and each a random hop after the one
   * before, and takes the first that has room; it gives up exactly if all eleven are full.
   */
  lemma PlanningProbes(lists: map<Block, seq<Id>>, maxPerBlock: nat, block: Block, draws: seq<nat>)
    requires block <= U32_MAX
    ensures exists probes: seq<Block> ::
              Probing(probes, block) && FirstWithRoom(lists, maxPerBlock, probes, FreeBlock(lists, maxPerBlock, block, draws, 0))
  {
    var probes := Probes(block, draws, 0);
    forall i | 0 <= i < RESCHEDULING_ATTEMPTS ensures Hop(probes[i], probes[i + 1], i) {
      ProbesHop(block, draws, 0, i);
    }
    FreeBlockTakesFirst(lists, maxPerBlock, block, draws, 0);
    assert Probing(probes, block);
  }

  /* ---- the draws of given probes ---- */

  ghost function DrawsFor(probes: seq<Block>): seq<nat>
    requires |probes| == RESCHEDULING_ATTEMPTS + 1
  {
    seq(RESCHEDULING_ATTEMPTS, i requires 0 <= i < RESCHEDULING_ATTEMPTS => SatSub(SatSub(probes[i + 1], probes[i]), Pow2(i)))
  }

  lemma HopIsDrawn(a: Block, b: Block, i: nat, draws: seq<nat>)
    requires a <= U32_MAX && Hop(a, b, i) && i < |draws| && draws[i] == SatSub(SatSub(b, a), Pow2(i))
    ensures SatAdd(a, Delay(draws, i), U32_MAX) == b
  {
    hide Pow2;
    assert draws[i] < Pow2(i);
    SmallRemainder(draws[i], Pow2(i));
  }

  lemma SmallRemainder(n: nat, d: nat)
    requires n < d
    ensures n % d == n
  {}

  lemma DrawAt(probes: seq<Block>, i: nat)
    requires |probes| == RESCHEDULING_ATTEMPTS + 1 && i < RESCHEDULING_ATTEMPTS
    ensures |DrawsFor(probes)| == RESCHEDULING_ATTEMPTS
    ensures DrawsFor(probes)[i] == SatSub(SatSub(probes[i + 1], probes[i]), Pow2(i))
  {
    hide Pow2, SatSub;
  }

  lemma HopEnds(a: Block, b: Block, i: nat)
    requires Hop(a, b, i)
    ensures b <= U32_MAX
  {}

  lemma {:induction false} ProbesAreDrawn(probes: seq<Block>, i: nat)
    requires |probes| == RESCHEDULING_ATTEMPTS + 1 && i <= RESCHEDULING_ATTEMPTS && probes[i] <= U32_MAX
    requires forall k :: 0 <= k < RESCHEDULING_ATTEMPTS ==> Hop(probes[k], probes[k + 1], k)
    ensures Probes(probes[i], DrawsFor(probes), i) == probes[i..]
    decreases RESCHEDULING_ATTEMPTS - i
  {
    hide DrawsFor, Delay, SatSub;
    if i < RESCHEDULING_ATTEMPTS {
      assert Hop(probes[i], probes[i + 1], i);
      hide Hop, Pow2;
      DrawAt(probes, i);
      HopIsDrawn(probes[i], probes[i + 1], i, DrawsFor(probes));
      HopEnds(probes[i], probes[i + 1], i);
      ProbesAreDrawn(probes, i + 1);
      assert [probes[i]] + probes[i + 1..] == probes[i..];
    }
  }

  /** And every such sequence of blocks is tried for some draws. */
  lemma EveryProbingIsDrawn(lists: map<Block, seq<Id>>, maxPerBlock: nat, block: Block, probes: seq<Block>)
    requires block <= U32_MAX && Probing(probes, block)
    ensures exists draws: seq<nat> :: FirstWithRoom(lists, maxPerBlock, probes, FreeBlock(lists, maxPerBlock, block, draws, 0))
  {
    var draws := DrawsFor(probes);
    ProbesAreDrawn(probes, 0);
    assert probes[0..] == probes;
    FreeBlockTakesFirst(lists, maxPerBlock, block, draws, 0);
  }
}
