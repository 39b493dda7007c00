/** One attempt, one block and one call keep the invariant. */
module DcaAttempt {
  import opened Common
  import opened Ledger
  import opened DcaModel
  import opened DcaInvariant
  import opened DcaSteps

  /** The invariant holds again with `id` dealt with, and no other schedule was touched. */
  ghost predicate Settled(s: State, s': State, pending: set<Id>, id: Id) {
    Inv(s', pending - {id}) && Effect(s, s', id)
  }

  lemma Via(s: State, m: State, s': State, pending: set<Id>, id: Id)
    requires Effect(s, m, id) && Settled(m, s', pending, id)
    ensures Settled(s, s', pending, id)
  {
    EffectTrans(s, m, s', id);
  }

  lemma RetryOrTerminateSettles(s: State, pending: set<Id>, id: Id, draws: seq<nat>)
    requires Inv(s, pending) && id in pending
    ensures Settled(s, RetryOrTerminate(s, id, draws), pending, id)
  {
    var failed := Emit(s, TradeFailed(id));
    NotedKeeps(s, pending, id, TradeFailed(id));
    if Retry(failed, id, draws).Some? {
      RetryKeeps(failed, pending, id, draws);
    } else {
      EndKeeps(failed, pending, id, Terminated(id));
    }
    Via(s, failed, RetryOrTerminate(s, id, draws), pending, id);
  }

  lemma AfterTradeErrorSettles(s: State, pending: set<Id>, id: Id, e: TradeError, draws: seq<nat>)
    requires Inv(s, pending) && id in pending
    ensures Settled(s, AfterTradeError(s, id, e, draws), pending, id)
  {
    if s.schedules[id].Rolling() && e.FundsUnavailable? {
      EndKeeps(s, pending, id, Completed(id));
    } else if e.OutOfGas? {
      GasKeeps(s, pending, id);
      RetryOrTerminateSettles(IncrementGas(s, id), pending, id, draws);
      Via(s, IncrementGas(s, id), AfterTradeError(s, id, e, draws), pending, id);
    } else if Retriable(e) {
      RetryOrTerminateSettles(s, pending, id, draws);
    } else {
      NotedKeeps(s, pending, id, TradeFailed(id));
      EndKeeps(Emit(s, TradeFailed(id)), pending, id, Terminated(id));
      Via(s, Emit(s, TradeFailed(id)), AfterTradeError(s, id, e, draws), pending, id);
    }
  }

  lemma ReplanSettles(s: State, pending: set<Id>, id: Id, r: ReplanInput, draws: seq<nat>)
    requires Inv(s, pending) && id in pending && RetriesOf(s, id) == 0
    ensures Settled(s, Replanned(s, id, r, draws), pending, id)
  {
    match Decide(s, id, r)
    case Finish => EndKeeps(s, pending, id, Completed(id));
    case GiveUp => EndKeeps(s, pending, id, Terminated(id));
    case Again(block) =>
      if Plan(s, id, NextPeriod, block, draws).Some? {
        PlanKeeps(s, pending, id, NextPeriod, block, draws);
      } else {
        EndKeeps(s, pending, id, Terminated(id));
      }
  }

  lemma TradeSettles(s: State, pending: set<Id>, id: Id, in_: Inputs)
    requires Inv(s, pending) && id in pending
    ensures Settled(s, Trade(s, id, in_), pending, id)
  {
    var r := ExecuteTrade(s, id, in_.trade);
    if r.Traded? {
      var s1 := Recorded(r.state, id, r.amountIn);
      TradeSpent(s, id, in_.trade);
      SpentKeeps(s, s1, pending, id, r.amountIn, TradeExecuted(id, r.amountIn), s.retries - {id});
      assert s1.retries == s.retries - {id};
      ReplanSettles(s1, pending, id, in_.replan, in_.draws);
      Via(s, s1, Trade(s, id, in_), pending, id);
    } else {
      AfterTradeErrorSettles(s, pending, id, r.error, in_.draws);
    }
  }

  lemma PendingIsLive(s: State, pending: set<Id>, id: Id)
    requires Inv(s, pending) && id in pending
    ensures id in s.schedules
  {}

  lemma FeeIsKnown(s: State, id: Id, f: FeeInput)
    requires id in s.schedules && TakeFee(s, id, f).FeePaid?
    ensures f.budgeted.Some? && PaidOf(f) <= f.budgeted.value && TakeFee(s, id, f).state.schedules == s.schedules
  {
    GasIsNoBudget(s, id, f.budgeted.value);
    hide Move;
  }

  lemma ChargeAndTradeSettles(s: State, pending: set<Id>, id: Id, in_: Inputs)
    requires Inv(s, pending) && id in pending
    ensures Settled(s, ChargeAndTrade(s, id, in_), pending, id)
  {
    hide TakeFee, RetryOrTerminate, Trade, End, Spent, Inv, Effect;
    assert id in s.schedules by {
      PendingIsLive(s, pending, id);
    }
    match TakeFee(s, id, in_.fee)
    case FeeError => EndKeeps(s, pending, id, Terminated(id));
    case FeeOutOfGas =>
      GasKeeps(s, pending, id);
      RetryOrTerminateSettles(IncrementGas(s, id), pending, id, in_.draws);
      Via(s, IncrementGas(s, id), ChargeAndTrade(s, id, in_), pending, id);
    case FeePaid(s1) =>
      FeeIsKnown(s, id, in_.fee);
      FeeSpent(s, id, in_.fee);
      SpentKeeps(s, s1, pending, id, in_.fee.budgeted.value, FeeTaken(id, in_.fee.budgeted.value, PaidOf(in_.fee)), s.retries);
      if in_.unstable {
        RetryOrTerminateSettles(s1, pending, id, in_.draws);
      } else {
        TradeSettles(s1, pending, id, in_);
      }
      Via(s, s1, ChargeAndTrade(s, id, in_), pending, id);
  }

  /** However an attempt goes, the invariant holds after it and no other schedule is touched. */
  lemma AttemptSettles(s: State, pending: set<Id>, id: Id, in_: Inputs)
    requires Inv(s, pending) && id in pending
    ensures Settled(s, Attempt(s, id, in_), pending, id)
  {
    var s0 := Emit(s, ExecutionStarted(id, s.now));
    NotedKeeps(s, pending, id, ExecutionStarted(id, s.now));
    if in_.bump {
      var next := SatAdd(s.now, 1, U32_MAX);
      if Plan(s0, id, Bumped, next, in_.draws).Some? {
        PlanKeeps(s0, pending, id, Bumped, next, in_.draws);
      } else {
        EndKeeps(s0, pending, id, Terminated(id));
      }
    } else {
      ChargeAndTradeSettles(s0, pending, id, in_);
    }
    Via(s, s0, Attempt(s, id, in_), pending, id);
  }

  function IdSet(ids: seq<Id>): set<Id> {
    set id | id in ids
  }

  lemma IdSetStep(ids: seq<Id>)
    requires ids != [] && NoDuplicates(ids)
    ensures ids[0] in IdSet(ids) && IdSet(ids) - {ids[0]} == IdSet(ids[1..]) && NoDuplicates(ids[1..])
  {
    assert ids == [ids[0]] + ids[1..];
  }

  /** Whatever order the block is shuffled into, attempting every pending schedule once clears them all. */
  lemma {:induction false} AttemptsSettle(s: State, order: seq<Id>, ins: seq<Inputs>)
    requires |order| == |ins| && NoDuplicates(order)
    requires Inv(s, IdSet(order))
    ensures Inv(Attempts(s, order, ins), {})
    ensures Attempts(s, order, ins).now == s.now
    decreases |order|
  {
    hide Attempt;
    if order == [] {
      assert IdSet(order) == {};
    } else {
      AttemptSettles(s, IdSet(order), order[0], ins[0]);
      IdSetStep(order);
      AttemptsSettle(Attempt(s, order[0], ins[0]), order[1..], ins[1..]);
    }
  }

  /** `order` is some shuffle of the next block's list. */
  ghost predicate Shuffles(s: State, order: seq<Id>) {
    multiset(order) == multiset(IdsAt(s.idsPerBlock, s.now + 1))
  }

  lemma ShuffleFacts(xs: seq<Id>, ys: seq<Id>)
    requires multiset(xs) == multiset(ys) && NoDuplicates(ys)
    ensures NoDuplicates(xs) && forall id :: id in xs <==> id in ys
  {
    forall id ensures id in xs <==> id in ys {
      assert id in multiset(xs) <==> id in multiset(ys);
    }
    forall i, j | 0 <= i < j < |xs| ensures xs[i] != xs[j] {
      if xs[i] == xs[j] {
        Repeated(xs, i, j);
        Single(ys, xs[i]);
      }
    }
  }

  lemma Repeated(xs: seq<Id>, i: nat, j: nat)
    requires i < j < |xs| && xs[i] == xs[j]
    ensures multiset(xs)[xs[i]] >= 2
  {
    assert xs == xs[..j] + [xs[j]] + xs[j + 1..];
    assert xs[..j][i] == xs[i];
    assert xs[i] in multiset(xs[..j]);
  }

  lemma {:induction false} Single(ys: seq<Id>, id: Id)
    requires NoDuplicates(ys)
    ensures multiset(ys)[id] <= 1
  {
    if ys != [] {
      assert ys == [ys[0]] + ys[1..];
      Single(ys[1..], id);
      if id == ys[0] {
        assert id !in ys[1..];
        assert id !in multiset(ys[1..]);
      }
    }
  }

  lemma TakeBlockPlan(s: State)
    requires Planned(s, {}) && s.now < U32_MAX
    ensures Planned(TakeBlock(s), IdSet(IdsAt(s.idsPerBlock, s.now + 1)))
  {
    var due := IdsAt(s.idsPerBlock, s.now + 1);
    var pending := IdSet(due);
    var s' := TakeBlock(s);
    assert ListOk(s, {}, s.now + 1);
    forall id | id in s'.execBlock ensures PlaceOk(s', pending, id) {
      assert PlaceOk(s, {}, id);
    }
    forall b ensures ListOk(s', pending, b) {
      assert ListOk(s, {}, b);
      if b != s.now + 1 {
        forall i | 0 <= i < |IdsAt(s.idsPerBlock, b)| ensures IdsAt(s.idsPerBlock, b)[i] !in pending {}
      }
    }
  }

  lemma TakeBlockAccounted(s: State, id: Id)
    requires Accounted(s, id)
    ensures Accounted(TakeBlock(s), id)
  {}

  lemma TakeBlockKeyed(s: State)
    requires Keyed(s) && Counters(s)
    ensures Keyed(TakeBlock(s)) && Counters(TakeBlock(s))
  {}

  /** Taking the block's list out makes exactly its schedules pending. */
  lemma TakeBlockPends(s: State)
    requires Inv(s, {}) && s.now < U32_MAX
    ensures Inv(TakeBlock(s), IdSet(IdsAt(s.idsPerBlock, s.now + 1)))
  {
    TakeBlockPlan(s);
    TakeBlockKeyed(s);
    SameReserves(s, TakeBlock(s));
    forall id ensures Accounted(TakeBlock(s), id) {
      TakeBlockAccounted(s, id);
    }
  }

  /**
   * A block keeps the invariant for every shuffle of its list and whatever the prices, fees,
   * trades and random draws are.
   */
  lemma BlockKeeps(s: State, order: seq<Id>, ins: seq<Inputs>)
    requires Inv(s, {}) && s.now < U32_MAX && Shuffles(s, order) && |order| == |ins|
    ensures Inv(OnInitialize(s, order, ins), {})
    ensures OnInitialize(s, order, ins).now == s.now + 1
  {
    var due := IdsAt(s.idsPerBlock, s.now + 1);
    assert ListOk(s, {}, s.now + 1);
    TakeBlockPends(s);
    ShuffleFacts(order, due);
    assert IdSet(order) == IdSet(due);
    AttemptsSettle(TakeBlock(s), order, ins);
  }
}
