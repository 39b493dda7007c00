/** Creating a schedule, and taking it back. */
module DcaRoundTrip {
  import opened Common
  import opened Ledger
  import opened DcaModel
  import opened DcaInvariant
  import opened DcaRuns
  import opened DcaTheorems

  lemma AcceptedFromOwner(s: State, who: Account, sch: Schedule, start: Option<Block>, c: CallInput)
    requires ScheduleCall(s, who, sch, start, c).Ok?
    ensures who == sch.owner
  {}

  lemma FirstBlockIsAhead(now: Block, start: Option<Block>)
    requires now <= U32_MAX && StartOk(start) && FirstBlock(now, start).Some?
    ensures Min(now + 2, U32_MAX) <= FirstBlock(now, start).value <= U32_MAX
    ensures start.None? ==> FirstBlock(now, start).value == now + 2
    ensures start.Some? ==> start.value <= FirstBlock(now, start).value <= Min(Max(now + 2, start.value) + 4, U32_MAX)
    ensures start.Some? ==> FirstBlock(now, start).value % 5 == 0
  {}

  /**
   * An accepted schedule moves its budget from the owner's free balance, which stays at or above
   * the lock, into the reserve, and waits for a block with room that is at least two ahead, not
   * before the requested start and at most 2036 blocks past the rounded-up one.
   */
  lemma CreationReservesAndPlans(s: State, who: Account, sch: Schedule, start: Option<Block>, c: CallInput)
    requires Inv(s, {}) && StartOk(start) && ScheduleCall(s, who, sch, start, c).Ok?
    ensures var s' := ScheduleCall(s, who, sch, start, c).state;
            var id, k := s.nextId, sch.SpentFrom();
            && who == sch.owner && id in s'.remaining && id in s'.execBlock
            && (!sch.Rolling() ==> s'.remaining[id] == sch.total)
            && BalanceAt(s', k).free == BalanceAt(s, k).free - s'.remaining[id] >= BalanceAt(s, k).frozen
            && BalanceAt(s', k).dca == BalanceAt(s, k).dca + s'.remaining[id]
            && Min(s.now + 2, U32_MAX) <= s'.execBlock[id]
            && (start.Some? ==> start.value <= s'.execBlock[id] <= Max(s.now + 2, start.value) + 4 + 2036)
            && (start.None? ==> s'.execBlock[id] <= s.now + 2 + 2036)
            && |IdsAt(s.idsPerBlock, s'.execBlock[id])| < s.cfg.maxPerBlock
  {
    var reserve, balance, requested, b := ScheduleShape(s, who, sch, start, c);
    assert who == sch.owner && s.now <= U32_MAX;
    hide ScheduleCall, Inv, FreeBlock;
    FirstBlockIsAhead(s.now, start);
    FreeBlockIsNear(s.idsPerBlock, s.cfg.maxPerBlock, requested, c.draws);
  }

  /* ---- creating and terminating ---- */

  lemma {:induction false} LastIndex(ids: seq<Id>, id: Id)
    requires id !in ids
    ensures IndexOf(ids + [id], id) == |ids|
  {
    if ids != [] {
      assert (ids + [id])[1..] == ids[1..] + [id];
      LastIndex(ids[1..], id);
    }
  }

  lemma WithoutLast(ids: seq<Id>, id: Id)
    requires id !in ids
    ensures Without(ids + [id], id) == ids
  {
    LastIndex(ids, id);
  }

  /** The next id is in none of the maps and lists. */
  lemma NextIdIsFresh(s: State, b: Block)
    requires Keyed(s) && Planned(s, {})
    ensures var id := s.nextId;
            && id !in s.schedules && id !in s.remaining && id !in s.retries && id !in s.execBlock && id !in s.extraGas
            && id !in IdsAt(s.idsPerBlock, b)
            && forall owner :: (owner, id) !in s.ownership
  {
    assert ListOk(s, {}, b);
  }

  lemma ReserveThenUnreserve(b: Balance, amount: nat)
    requires Reserve(b, amount).Some?
    ensures Unreserve(Reserve(b, amount).value, amount) == b
  {}

  /** Everything stored is as it was, up to the id counter and the log. */
  ghost predicate SameStorage(s: State, s': State) {
    && s'.schedules == s.schedules && s'.ownership == s.ownership && s'.remaining == s.remaining
    && s'.retries == s.retries && s'.execBlock == s.execBlock && s'.extraGas == s.extraGas
    && (forall b :: IdsAt(s'.idsPerBlock, b) == IdsAt(s.idsPerBlock, b))
    && (forall k :: BalanceAt(s', k) == BalanceAt(s, k))
  }

  lemma UnplanUndoes(s: State, s1: State, id: Id, b: Block)
    requires id !in IdsAt(s.idsPerBlock, b) && IdsAt(s.idsPerBlock, b) + [id] == IdsAt(s1.idsPerBlock, b)
    requires s1.idsPerBlock == s.idsPerBlock[b := IdsAt(s1.idsPerBlock, b)]
    ensures forall x :: IdsAt(Unplan(s1, id, b).idsPerBlock, x) == IdsAt(s.idsPerBlock, x)
  {
    WithoutLast(IdsAt(s.idsPerBlock, b), id);
    hide Without;
  }

  lemma AddRemove<V>(m: map<Id, V>, id: Id, v: V)
    requires id !in m
    ensures m[id := v] - {id} == m
  {}

  lemma CreatedFields(s: State, sch: Schedule, reserve: nat, balance: Balance, requested: Block, b: Block)
    ensures var s1 := CreatedAt(s, sch, reserve, balance, requested, b);
            && s1.schedules == s.schedules[s.nextId := sch] && s1.ownership == s.ownership + {(sch.owner, s.nextId)}
            && s1.remaining == s.remaining[s.nextId := reserve] && s1.retries == s.retries[s.nextId := 0]
            && s1.execBlock == s.execBlock[s.nextId := b] && s1.extraGas == s.extraGas
            && s1.idsPerBlock == s.idsPerBlock[b := IdsAt(s.idsPerBlock, b) + [s.nextId]]
            && s1.ledger == s.ledger[sch.SpentFrom() := balance]
  {}

  lemma EndedFields(s: State, id: Id, b: Block)
    requires id in s.schedules && id in s.remaining
    ensures var s' := Terminate(Unplan(s, id, b), id);
            var k := s.schedules[id].SpentFrom();
            && s'.schedules == s.schedules - {id} && s'.ownership == s.ownership - {(s.schedules[id].owner, id)}
            && s'.remaining == s.remaining - {id} && s'.retries == s.retries - {id}
            && s'.execBlock == s.execBlock - {id} && s'.extraGas == s.extraGas - {id}
            && s'.idsPerBlock == Unplan(s, id, b).idsPerBlock
            && s'.ledger == s.ledger[k := Unreserve(BalanceAt(s, k), s.remaining[id])]
  {
    hide Without, Unreserve;
  }

  /** A state with one schedule more, under `id`, before its owner's balance is touched again. */
  ghost predicate OneMore(s: State, s1: State, id: Id, sch: Schedule, reserve: nat, b: Block) {
    && s1.schedules == s.schedules[id := sch] && s1.ownership == s.ownership + {(sch.owner, id)}
    && s1.remaining == s.remaining[id := reserve] && s1.retries == s.retries[id := 0]
    && s1.execBlock == s.execBlock[id := b] && s1.extraGas == s.extraGas
  }

  /** Ending the schedule just created restores the maps. */
  lemma ForgetUndoes(s: State, s1: State, id: Id, sch: Schedule, reserve: nat, b: Block)
    requires OneMore(s, s1, id, sch, reserve, b) && (sch.owner, id) !in s.ownership
    requires id !in s.schedules && id !in s.remaining && id !in s.retries && id !in s.execBlock && id !in s.extraGas
    ensures var s2 := Terminate(Unplan(s1, id, b), id);
            && s2.schedules == s.schedules && s2.ownership == s.ownership && s2.remaining == s.remaining
            && s2.retries == s.retries && s2.execBlock == s.execBlock && s2.extraGas == s.extraGas
  {
    hide Terminate, Unplan;
    EndedFields(s1, id, b);
    AddRemove(s.schedules, id, sch);
    AddRemove(s.remaining, id, reserve);
    AddRemove(s.retries, id, 0);
    AddRemove(s.execBlock, id, b);
    assert s.extraGas - {id} == s.extraGas;
    assert s.ownership + {(sch.owner, id)} - {(sch.owner, id)} == s.ownership;
  }

  /** And the balance: what was reserved is unreserved. */
  lemma RefundUndoes(s: State, s1: State, id: Id, sch: Schedule, reserve: nat, b: Block)
    requires Reserve(BalanceAt(s, sch.SpentFrom()), reserve).Some?
    requires s1.ledger == s.ledger[sch.SpentFrom() := Reserve(BalanceAt(s, sch.SpentFrom()), reserve).value]
    requires id in s1.schedules && s1.schedules[id] == sch && id in s1.remaining && s1.remaining[id] == reserve
    ensures var s2 := Terminate(Unplan(s1, id, b), id);
            && s2.idsPerBlock == Unplan(s1, id, b).idsPerBlock
            && s2.ledger == s.ledger[sch.SpentFrom() := BalanceAt(s, sch.SpentFrom())]
  {
    hide Terminate, Unplan, Reserve, Unreserve;
    var k := sch.SpentFrom();
    EndedFields(s1, id, b);
    ReserveThenUnreserve(BalanceAt(s, k), reserve);
    assert s1.ledger[k := BalanceAt(s, k)] == s.ledger[k := BalanceAt(s, k)];
  }

  lemma CreatedIsTerminable(s1: State, who: Account, id: Id, b: Block, before: seq<Id>)
    requires id in s1.schedules && s1.schedules[id].owner == who && id in s1.execBlock && s1.execBlock[id] == b
    requires IdsAt(s1.idsPerBlock, b) == before + [id]
    ensures TerminateCall(s1, who, false, id, None) == Ok(Terminate(Unplan(s1, id, b), id))
  {
    hide Terminate, Unplan;
    assert (before + [id])[|before|] == id;
  }

  lemma SameBalances(s: State, s': State, k: Key)
    requires s'.ledger == s.ledger[k := BalanceAt(s, k)]
    ensures forall j :: BalanceAt(s', j) == BalanceAt(s, j)
  {}

  /** A schedule its owner terminates at once leaves no trace but its id: every map, list and balance is restored. */
  lemma CreateThenTerminate(s: State, who: Account, sch: Schedule, start: Option<Block>, c: CallInput)
    requires Inv(s, {}) && StartOk(start) && ScheduleCall(s, who, sch, start, c).Ok?
    ensures var s1 := ScheduleCall(s, who, sch, start, c).state;
            var r := TerminateCall(s1, who, false, s.nextId, None);
            r.Ok? && SameStorage(s, r.state)
  {
    hide ScheduleCall, Keyed, Planned, Reserves, Counters, Accounted, FreeBlock, FirstBlock, Reserve, CreatedAt, TerminateCall, Terminate, Unplan;
    var reserve, balance, requested, b := ScheduleShape(s, who, sch, start, c);
    var s1, id := CreatedAt(s, sch, reserve, balance, requested, b), s.nextId;
    AcceptedFromOwner(s, who, sch, start, c);
    CreatedFields(s, sch, reserve, balance, requested, b);
    CreatedIsTerminable(s1, who, id, b, IdsAt(s.idsPerBlock, b));
    NextIdIsFresh(s, b);
    UnplanUndoes(s, s1, id, b);
    ForgetUndoes(s, s1, id, sch, reserve, b);
    RefundUndoes(s, s1, id, sch, reserve, b);
    SameBalances(s, TerminateCall(s1, who, false, id, None).state, sch.SpentFrom());
  }
}
