/** The calls of the pallet and whole runs of blocks, calls and unrelated balance changes. */
module DcaRuns {
  import opened Common
  import opened Ledger
  import opened DcaModel
  import opened DcaInvariant
  import opened DcaSteps
  import opened DcaAttempt

  /* ---- schedule ---- */

  /** A new schedule in block `b`, with its reserve taken from `ledger`. */
  function CreatedAt(s: State, sch: Schedule, reserve: nat, balance: Balance, requested: Block, b: Block): State {
    Emit(PlacedAt(SetBalance(Insert(s, sch, reserve), sch.SpentFrom(), balance), s.nextId, First, requested, b),
         Scheduled(s.nextId, sch.total, reserve))
  }

  lemma KeyedWithOneMore(s: State, s': State, sch: Schedule, reserve: nat, b: Block)
    requires Keyed(s)
    requires s'.nextId == s.nextId + 1 && s'.schedules == s.schedules[s.nextId := sch]
    requires s'.ownership == s.ownership + {(sch.owner, s.nextId)} && s'.remaining == s.remaining[s.nextId := reserve]
    requires s'.retries == s.retries[s.nextId := 0] && s'.execBlock == s.execBlock[s.nextId := b] && s'.extraGas == s.extraGas
    ensures Keyed(s')
  {
    forall id | id in s'.schedules ensures id < s'.nextId && (s'.schedules[id].owner, id) in s'.ownership {
      assert id != s.nextId ==> id in s.schedules;
    }
    forall o | o in s'.ownership ensures o.1 in s'.schedules && s'.schedules[o.1].owner == o.0 {
      assert o in s.ownership || o == (sch.owner, s.nextId);
    }
  }

  lemma CreatedKeyed(s: State, sch: Schedule, reserve: nat, balance: Balance, requested: Block, b: Block)
    requires Keyed(s)
    ensures Keyed(CreatedAt(s, sch, reserve, balance, requested, b))
  {
    hide Keyed;
    KeyedWithOneMore(s, CreatedAt(s, sch, reserve, balance, requested, b), sch, reserve, b);
  }

  lemma CreatedCounters(s: State, sch: Schedule, reserve: nat, balance: Balance, requested: Block, b: Block)
    requires Keyed(s) && Counters(s)
    ensures Counters(CreatedAt(s, sch, reserve, balance, requested, b))
  {}

  lemma CreatedPlan(s: State, sch: Schedule, reserve: nat, balance: Balance, requested: Block, b: Block)
    requires Keyed(s) && Planned(s, {})
    requires s.now < b <= U32_MAX && |IdsAt(s.idsPerBlock, b)| < s.cfg.maxPerBlock
    ensures Planned(CreatedAt(s, sch, reserve, balance, requested, b), {})
  {
    var s1 := SetBalance(Insert(s, sch, reserve), sch.SpentFrom(), balance);
    SamePlan(s, s1, {});
    PlacedKeepsPlan(s1, {}, s.nextId, First, requested, b);
    assert {} - {s.nextId} == {};
    SamePlan(PlacedAt(s1, s.nextId, First, requested, b), CreatedAt(s, sch, reserve, balance, requested, b), {});
  }

  lemma CreatedReserves(s: State, sch: Schedule, reserve: nat, balance: Balance, requested: Block, b: Block)
    requires Keyed(s) && Reserves(s) && Reserve(BalanceAt(s, sch.SpentFrom()), reserve) == Some(balance)
    ensures Reserves(CreatedAt(s, sch, reserve, balance, requested, b))
  {
    InsertReserves(s, sch, reserve, balance);
    SameReserves(SetBalance(Insert(s, sch, reserve), sch.SpentFrom(), balance), CreatedAt(s, sch, reserve, balance, requested, b));
  }

  lemma CreatedAccounted(s: State, sch: Schedule, reserve: nat, balance: Balance, requested: Block, b: Block, j: Id)
    requires Keyed(s) && Accounted(s, j) && (!sch.Rolling() ==> reserve == sch.total)
    ensures Accounted(CreatedAt(s, sch, reserve, balance, requested, b), j)
  {
    var s' := CreatedAt(s, sch, reserve, balance, requested, b);
    var planned := Then(s.log, ExecutionPlanned(s.nextId, First, s.now, requested, b));
    assert s'.log == Then(planned, Scheduled(s.nextId, sch.total, reserve));
    assert HistoryOf(planned, j) == HistoryOf(s.log, j);
  }

  lemma ScheduleShape(s: State, who: Account, sch: Schedule, start: Option<Block>, c: CallInput) returns (reserve: nat, balance: Balance, requested: Block, b: Block)
    requires ScheduleCall(s, who, sch, start, c).Ok?
    ensures ScheduleCall(s, who, sch, start, c).state == CreatedAt(s, sch, reserve, balance, requested, b)
    ensures Reserve(BalanceAt(s, sch.SpentFrom()), reserve) == Some(balance)
    ensures !sch.Rolling() ==> reserve == sch.total
    ensures FirstBlock(s.now, start) == Some(requested) && s.now < requested
    ensures FreeBlock(s.idsPerBlock, s.cfg.maxPerBlock, requested, c.draws, 0) == Some(b)
  {
    reserve := ReserveFor(s.cfg, sch, c).0;
    balance := Reserve(BalanceAt(s, sch.SpentFrom()), reserve).value;
    requested := FirstBlock(s.now, start).value;
    b := FreeBlock(s.idsPerBlock, s.cfg.maxPerBlock, requested, c.draws, 0).value;
  }

  /** A requested start beyond the block number range is not a block number. */
  predicate StartOk(start: Option<Block>) {
    start.Some? ==> start.value <= U32_MAX
  }

  lemma ScheduleKeeps(s: State, who: Account, sch: Schedule, start: Option<Block>, c: CallInput)
    requires Inv(s, {}) && StartOk(start) && ScheduleCall(s, who, sch, start, c).Ok?
    ensures Inv(ScheduleCall(s, who, sch, start, c).state, {})
  {
    var reserve, balance, requested, b := ScheduleShape(s, who, sch, start, c);
    FreeBlockFits(s.idsPerBlock, s.cfg.maxPerBlock, requested, c.draws, 0);
    CreatedKeyed(s, sch, reserve, balance, requested, b);
    CreatedCounters(s, sch, reserve, balance, requested, b);
    CreatedPlan(s, sch, reserve, balance, requested, b);
    CreatedReserves(s, sch, reserve, balance, requested, b);
    forall j ensures Accounted(CreatedAt(s, sch, reserve, balance, requested, b), j) {
      CreatedAccounted(s, sch, reserve, balance, requested, b, j);
    }
  }

  /* ---- terminate ---- */

  lemma WithoutFacts(ids: seq<Id>, id: Id)
    requires NoDuplicates(ids)
    ensures NoDuplicates(Without(ids, id)) && |Without(ids, id)| <= |ids|
    ensures forall j :: j in Without(ids, id) <==> j in ids && j != id
  {
    var i := IndexOf(ids, id);
    var left := Without(ids, id);
    if i < |ids| {
      assert forall p | 0 <= p < |left| :: left[p] == ids[if p < i then p else p + 1];
      forall j ensures j in left <==> j in ids && j != id {
        if j in left {
          var p :| 0 <= p < |left| && left[p] == j;
          assert ids[if p < i then p else p + 1] != ids[i];
        }
        if j in ids && j != id {
          var p :| 0 <= p < |ids| && ids[p] == j;
          assert left[if p < i then p else p - 1] == j;
        }
      }
    }
  }

  /** Striking `id` from the list of its block and from the plan leaves the others planned. */
  lemma StruckPlan(s: State, s': State, id: Id, b: Block)
    requires Planned(s, {}) && id in IdsAt(s.idsPerBlock, b)
    requires s'.now == s.now && s'.cfg == s.cfg && s'.execBlock == s.execBlock - {id}
    requires s'.idsPerBlock == Unplan(s, id, b).idsPerBlock
    ensures Planned(s', {})
  {
    assert ListOk(s, {}, b);
    WithoutFacts(IdsAt(s.idsPerBlock, b), id);
    assert s.execBlock[id] == b;
    assert IdsAt(s'.idsPerBlock, b) == Without(IdsAt(s.idsPerBlock, b), id);
    hide Without;
    forall c ensures ListOk(s', {}, c) {
      assert ListOk(s, {}, c);
      if c == b {
        forall i | 0 <= i < |IdsAt(s'.idsPerBlock, b)|
          ensures IdsAt(s'.idsPerBlock, b)[i] in s.execBlock && s.execBlock[IdsAt(s'.idsPerBlock, b)[i]] == b && IdsAt(s'.idsPerBlock, b)[i] != id
        {
          assert IdsAt(s'.idsPerBlock, b)[i] in Without(IdsAt(s.idsPerBlock, b), id);
        }
      } else {
        assert IdsAt(s'.idsPerBlock, c) == IdsAt(s.idsPerBlock, c);
      }
    }
    forall j | j in s'.execBlock ensures PlaceOk(s', {}, j) {
      assert PlaceOk(s, {}, j);
    }
  }

  lemma CancelledPlan(s: State, id: Id, b: Block)
    requires Keyed(s) && Planned(s, {}) && id in s.schedules && id in IdsAt(s.idsPerBlock, b)
    ensures Planned(Terminate(Unplan(s, id, b), id), {})
  {
    hide Planned, Without, Keyed;
    StruckPlan(s, Terminate(Unplan(s, id, b), id), id, b);
  }

  lemma UnplanKeeps(s: State, id: Id, b: Block)
    requires Keyed(s) && Reserves(s) && Counters(s) && forall j :: Accounted(s, j)
    ensures var u := Unplan(s, id, b);
            Keyed(u) && Reserves(u) && Counters(u) && (forall j :: Accounted(u, j)) && Effect(s, u, id)
  {
    SameReserves(s, Unplan(s, id, b));
    forall j ensures Accounted(Unplan(s, id, b), j) {
      assert Accounted(s, j);
    }
  }

  /** A manual termination refunds the schedule and also takes it out of its block's list. */
  lemma TerminateKeeps(s: State, who: Account, authority: bool, id: Id, at: Option<Block>)
    requires Inv(s, {}) && TerminateCall(s, who, authority, id, at).Ok?
    ensures Inv(TerminateCall(s, who, authority, id, at).state, {})
  {
    var b := if at.Some? then at.value else s.execBlock[id];
    var u := Unplan(s, id, b);
    UnplanKeeps(s, id, b);
    CancelledPlan(s, id, b);
    EndReserves(u, id, Terminated(id));
    EndedEffect(u, id, Terminated(id));
    EndedKeyed(u, id, Terminated(id));
    ReserveCoversBudget(u, id);
    assert Accounted(u, id);
    EndedAccounted(u, id, Terminated(id));
    Assemble(u, Terminate(u, id), {}, id);
  }

  /* ---- unlock_reserves ---- */

  /**
   * In a reachable state an account without schedules has no DCA reserve left, so
   * `unlock_reserves` always refuses: it can only help with reserves from elsewhere.
   */
  lemma UnlockFindsNothing(s: State, pending: set<Id>, who: Account, asset: Asset)
    requires Inv(s, pending)
    ensures UnlockCall(s, who, asset).Err?
    ensures UnlockCall(s, who, asset).error.HasActiveSchedules? <==> exists id :: id in s.schedules && s.schedules[id].owner == who
    ensures UnlockCall(s, who, asset).error.HasActiveSchedules? || UnlockCall(s, who, asset).error.NoReservesLocked?
  {
    if exists o :: o in s.ownership && o.0 == who {
      var o :| o in s.ownership && o.0 == who;
      assert o.1 in s.schedules && s.schedules[o.1].owner == who;
    } else {
      forall id | id in s.schedules ensures s.schedules[id].owner != who {
        assert (s.schedules[id].owner, id) in s.ownership;
      }
      assert Budgets(s.schedules, s.remaining, (who, asset)) == map[];
    }
  }

  /* ---- runs ---- */

  datatype Action =
    | NewBlock(order: seq<Id>, ins: seq<Inputs>)
    | Create(who: Account, sch: Schedule, start: Option<Block>, c: CallInput)
    | Cancel(who: Account, authority: bool, id: Id, at: Option<Block>)
    | Unlock(who: Account, asset: Asset)
    /** Anything else that happens to a balance: it leaves the DCA reserve alone. */
    | Elsewhere(k: Key, free: nat, other: nat, frozen: nat)

  ghost predicate Enabled(s: State, a: Action) {
    match a
    case NewBlock(order, ins) => s.now < U32_MAX && |order| == |ins| && Shuffles(s, order)
    case Create(_, _, start, _) => StartOk(start)
    case _ => true
  }

  function Applied(s: State, o: Outcome): State {
    if o.Ok? then o.state else s
  }

  ghost function Step(s: State, a: Action): State
    requires Enabled(s, a)
  {
    match a
    case NewBlock(order, ins) => OnInitialize(s, order, ins)
    case Create(who, sch, start, c) => Applied(s, ScheduleCall(s, who, sch, start, c))
    case Cancel(who, authority, id, at) => Applied(s, TerminateCall(s, who, authority, id, at))
    case Unlock(who, asset) => Applied(s, UnlockCall(s, who, asset))
    case Elsewhere(k, free, other, frozen) => SetBalance(s, k, Balance(free, BalanceAt(s, k).dca, other, frozen))
  }

  lemma ElsewhereKeeps(s: State, k: Key, free: nat, other: nat, frozen: nat)
    requires Inv(s, {})
    ensures Inv(SetBalance(s, k, Balance(free, BalanceAt(s, k).dca, other, frozen)), {})
  {
    hide Planned, Reserves;
    var s' := SetBalance(s, k, Balance(free, BalanceAt(s, k).dca, other, frozen));
    SamePlan(s, s', {});
    SameReserves(s, s');
    forall j ensures Accounted(s', j) {
      assert Accounted(s, j);
    }
  }

  lemma StepKeeps(s: State, a: Action)
    requires Inv(s, {}) && Enabled(s, a)
    ensures Inv(Step(s, a), {})
  {
    match a
    case NewBlock(order, ins) => BlockKeeps(s, order, ins);
    case Create(who, sch, start, c) =>
      if ScheduleCall(s, who, sch, start, c).Ok? {
        ScheduleKeeps(s, who, sch, start, c);
      }
    case Cancel(who, authority, id, at) =>
      if TerminateCall(s, who, authority, id, at).Ok? {
        TerminateKeeps(s, who, authority, id, at);
      }
    case Unlock(who, asset) => UnlockFindsNothing(s, {}, who, asset);
    case Elsewhere(k, free, other, frozen) => ElsewhereKeeps(s, k, free, other, frozen);
  }

  /** Before the first schedule: no storage entries, and no DCA reserves. */
  ghost predicate Initial(s: State) {
    && s.schedules == map[] && s.ownership == {} && s.remaining == map[] && s.retries == map[]
    && s.execBlock == map[] && s.idsPerBlock == map[] && s.extraGas == map[] && s.transientGas == 0
    && s.log == NoEvents && s.now <= U32_MAX
    && (forall k :: BalanceAt(s, k).dca == 0)
  }

  lemma InitialInv(s: State)
    requires Initial(s)
    ensures Inv(s, {})
  {
    forall k ensures BalanceAt(s, k).dca == SumMap(Budgets(s.schedules, s.remaining, k)) {
      assert Budgets(s.schedules, s.remaining, k) == map[];
    }
    forall b ensures ListOk(s, {}, b) {}
    forall id ensures Accounted(s, id) {}
  }

  /** `states` is a run: each state follows from the one before by some enabled action. */
  ghost predicate IsRun(states: seq<State>, actions: seq<Action>) {
    && |states| == |actions| + 1
    && forall i | 0 <= i < |actions| :: Enabled(states[i], actions[i]) && states[i + 1] == Step(states[i], actions[i])
  }

  /** The invariant holds in every state of every run. */
  lemma {:induction false} RunKeeps(states: seq<State>, actions: seq<Action>, n: nat)
    requires IsRun(states, actions) && Initial(states[0]) && n < |states|
    ensures Inv(states[n], {})
  {
    if n == 0 {
      InitialInv(states[0]);
    } else {
      RunKeeps(states, actions, n - 1);
      StepKeeps(states[n - 1], actions[n - 1]);
    }
  }
}
