/** When schedules end: finitely many attempts, funded as accepted, completed only when exhausted. */
module DcaEndings {
  import opened Common
  import opened Ledger
  import opened DcaModel
  import opened DcaInvariant
  import opened DcaSteps
  import opened DcaAttempt
  import opened DcaAttemptLaws
  import opened DcaRuns
  import opened DcaTermination
  import opened DcaTheorems
  import opened DcaOutcomes

  /* ---- idle attempts ---- */

  function IdleOf(s: State, id: Id): nat {
    HistoryOf(s.log, id).idle
  }

  /** If the schedule is still there, no idle attempt was added to its record. */
  ghost predicate Busy(s: State, s': State, id: Id) {
    id in s'.schedules ==> IdleOf(s', id) == IdleOf(s, id)
  }

  lemma EventIdle(log: Log, id: Id, e: Event)
    requires !e.Scheduled? && !e.TradeExecuted?
    ensures HistoryOf(Then(log, e), id).idle == HistoryOf(log, id).idle
  {}

  lemma PlanIdle(s: State, id: Id, reason: Reason, requested: Block, draws: seq<nat>)
    requires Plan(s, id, reason, requested, draws).Some?
    ensures Busy(s, Plan(s, id, reason, requested, draws).value, id)
  {
    hide FreeBlock, HistoryOf;
    var b := FreeBlock(s.idsPerBlock, s.cfg.maxPerBlock, requested, draws, 0).value;
    EventIdle(s.log, id, ExecutionPlanned(id, reason, s.now, requested, b));
  }

  lemma RetryOrTerminateIdle(s: State, id: Id, draws: seq<nat>)
    requires id in s.schedules
    ensures Busy(s, RetryOrTerminate(s, id, draws), id)
  {
    hide Plan, End, HistoryOf, Pow2;
    var failed := Emit(s, TradeFailed(id));
    EventIdle(s.log, id, TradeFailed(id));
    EndTerms(failed, id, Terminated(id));
    var k := RetriesOf(s, id);
    if Retry(failed, id, draws).Some? {
      PlanIdle(failed.(retries := failed.retries[id := k + 1]), id, Retried, RetryBlock(s.now, k).value, draws);
    }
  }

  lemma AfterTradeErrorIdle(s: State, id: Id, e: TradeError, draws: seq<nat>)
    requires id in s.schedules
    ensures Busy(s, AfterTradeError(s, id, e, draws), id)
  {
    hide RetryOrTerminate, End, HistoryOf;
    EndTerms(s, id, Completed(id));
    var s1 := if e.OutOfGas? then IncrementGas(s, id) else s;
    EndTerms(Emit(s1, TradeFailed(id)), id, Terminated(id));
    RetryOrTerminateIdle(s1, id, draws);
  }

  lemma ReplannedIdle(s: State, id: Id, r: ReplanInput, draws: seq<nat>)
    requires id in s.schedules
    ensures Busy(s, Replanned(s, id, r, draws), id)
  {
    hide Plan, End, Decide, HistoryOf;
    EndTerms(s, id, Completed(id));
    EndTerms(s, id, Terminated(id));
    var d := Decide(s, id, r);
    if d.Again? && Plan(s, id, NextPeriod, d.block, draws).Some? {
      PlanIdle(s, id, NextPeriod, d.block, draws);
    }
  }

  /** A sell order that trades nothing has nothing left, and ends. */
  lemma EmptySellEnds(s: State, id: Id, in_: Inputs)
    requires id in s.schedules && id in s.remaining && !s.schedules[id].Rolling() && s.schedules[id].order.Sell?
    requires s.schedules[id].order.amountIn > 0 && s.cfg.minimumTrade > 0
    requires ExecuteTrade(s, id, in_.trade).Traded? && ExecuteTrade(s, id, in_.trade).amountIn == 0
    ensures id !in Trade(s, id, in_).schedules
  {
    hide ExecuteTrade, Trade;
    PartialSellIsTheLast(s, id, in_);
  }

  /** The order is one whose trades are never free of charge. */
  predicate Sells(s: State, id: Id)
    requires id in s.schedules
  {
    s.schedules[id].order.Sell? && s.schedules[id].order.amountIn > 0 && s.cfg.minimumTrade > 0
  }

  lemma TradeIdle(s: State, id: Id, in_: Inputs)
    requires id in s.schedules && id in s.remaining && !s.schedules[id].Rolling()
    requires HistoryOf(s.log, id).lastFee > 0 || Sells(s, id)
    ensures Busy(s, Trade(s, id, in_), id)
  {
    hide ExecuteTrade, Replanned, AfterTradeError;
    match ExecuteTrade(s, id, in_.trade)
    case NotTraded(e) => AfterTradeErrorIdle(s, id, e, in_.draws);
    case Traded(m, amountIn) =>
      TradeFields(s, id, in_.trade);
      var s1 := Recorded(m, id, amountIn);
      ReplannedIdle(s1, id, in_.replan, in_.draws);
      var h := HistoryOf(s.log, id);
      assert HistoryOf(s1.log, id) == Replay(h, id, TradeExecuted(id, amountIn));
      if amountIn == 0 && h.lastFee == 0 {
        EmptySellEnds(s, id, in_);
      }
  }

  /** Whenever the input names a fee, it is above zero. */
  predicate Charges(in_: Inputs) {
    in_.fee.budgeted.Some? ==> in_.fee.budgeted.value > 0
  }

  lemma ChargeAndTradeIdle(s: State, id: Id, in_: Inputs)
    requires id in s.schedules && id in s.remaining && !s.schedules[id].Rolling()
    requires Charges(in_) || Sells(s, id)
    ensures Busy(s, ChargeAndTrade(s, id, in_), id)
  {
    hide TakeFee, RetryOrTerminate, Trade, End, HistoryOf;
    match TakeFee(s, id, in_.fee)
    case FeeError => EndTerms(s, id, Terminated(id));
    case FeeOutOfGas => RetryOrTerminateIdle(IncrementGas(s, id), id, in_.draws);
    case FeePaid(s1) =>
      FeeIsKnown(s, id, in_.fee);
      FeeFields(s, id, in_.fee);
      ChargeFields(s, id, in_.fee);
      EventIdle(s.log, id, FeeTaken(id, in_.fee.budgeted.value, PaidOf(in_.fee)));
      FeeIsLast(s.log, id, in_.fee.budgeted.value, PaidOf(in_.fee));
      if in_.unstable {
        RetryOrTerminateIdle(s1, id, in_.draws);
      } else {
        TradeIdle(s1, id, in_);
      }
  }

  lemma FeeIsLast(log: Log, id: Id, drawn: nat, paid: nat)
    ensures HistoryOf(Then(log, FeeTaken(id, drawn, paid)), id).lastFee == drawn
  {}

  /** An attempt that is charged, and any attempt of a sell order, leaves no live schedule with an idle attempt more. */
  lemma AttemptIdle(s: State, id: Id, in_: Inputs)
    requires id in s.schedules && id in s.remaining && !s.schedules[id].Rolling()
    requires Charges(in_) || Sells(s, id)
    ensures Busy(s, Attempt(s, id, in_), id)
  {
    hide ChargeAndTrade, Plan, End, HistoryOf;
    var s0 := Emit(s, ExecutionStarted(id, s.now));
    EventIdle(s.log, id, ExecutionStarted(id, s.now));
    if in_.bump {
      var requested := SatAdd(s.now, 1, U32_MAX);
      EndTerms(s0, id, Terminated(id));
      if Plan(s0, id, Bumped, requested, in_.draws).Some? {
        PlanIdle(s0, id, Bumped, requested, in_.draws);
      }
    } else {
      ChargeAndTradeIdle(s0, id, in_);
    }
  }

  /* ---- over runs ---- */

  /** Some prices under which the schedule passes the checks of its creation. */
  ghost predicate Admitted(cfg: Config, sch: Schedule) {
    exists c: CallInput :: ReserveFor(cfg, sch, c).1.None?
  }

  lemma AdmittedSells(cfg: Config, sch: Schedule)
    requires Admitted(cfg, sch) && sch.order.Sell?
    ensures sch.order.amountIn >= cfg.minimumTrade
  {
    var c: CallInput :| ReserveFor(cfg, sch, c).1.None?;
    AcceptableIff(cfg, sch, c);
  }

  /** A live schedule was admitted, and a fixed one that pays or sells has had no idle attempt. */
  ghost predicate Diligent(s: State, id: Id, paying: bool) {
    id in s.schedules ==>
      && Admitted(s.cfg, s.schedules[id])
      && (!s.schedules[id].Rolling() && (paying || (s.schedules[id].order.Sell? && s.cfg.minimumTrade > 0)) ==> IdleOf(s, id) == 0)
  }

  lemma UntouchedDiligent(s: State, s': State, id: Id, paying: bool)
    requires Untouched(s, s', id) && s'.cfg == s.cfg && Diligent(s, id, paying)
    ensures Diligent(s', id, paying)
  {
    hide Admitted;
  }

  lemma OwnAttemptDiligent(s: State, id: Id, in_: Inputs, paying: bool)
    requires id in s.schedules && id in s.remaining && Attempt(s, id, in_).cfg == s.cfg
    requires Diligent(s, id, paying) && (paying ==> Charges(in_))
    ensures Diligent(Attempt(s, id, in_), id, paying)
  {
    hide Attempt, Admitted, HistoryOf;
    var sch := s.schedules[id];
    AttemptTerms(s, id, in_);
    if !sch.Rolling() && (paying || (sch.order.Sell? && s.cfg.minimumTrade > 0)) {
      if sch.order.Sell? {
        AdmittedSells(s.cfg, sch);
      }
      AttemptIdle(s, id, in_);
    }
  }

  lemma AttemptDiligent(s: State, pending: set<Id>, id: Id, in_: Inputs, j: Id, paying: bool)
    requires Inv(s, pending) && id in pending && Diligent(s, j, paying) && (paying ==> Charges(in_))
    ensures Diligent(Attempt(s, id, in_), j, paying)
  {
    hide Attempt, Planned, Reserves, Counters, Accounted, Diligent;
    AttemptSettles(s, pending, id, in_);
    if j != id {
      assert Untouched(s, Attempt(s, id, in_), j);
      UntouchedDiligent(s, Attempt(s, id, in_), j, paying);
    } else {
      InvLive(s, pending, id);
      KeyedLive(s, id);
      OwnAttemptDiligent(s, id, in_, paying);
    }
  }

  lemma {:induction false} AttemptsDiligent(s: State, order: seq<Id>, ins: seq<Inputs>, j: Id, paying: bool)
    requires |order| == |ins| && NoDuplicates(order) && Inv(s, IdSet(order)) && Diligent(s, j, paying)
    requires paying ==> forall i :: 0 <= i < |ins| ==> Charges(ins[i])
    ensures Diligent(Attempts(s, order, ins), j, paying)
    decreases |order|
  {
    hide Attempt, Inv, Diligent, Charges;
    if order != [] {
      var s1 := Attempt(s, order[0], ins[0]);
      IdSetStep(order);
      AttemptSettles(s, IdSet(order), order[0], ins[0]);
      AttemptDiligent(s, IdSet(order), order[0], ins[0], j, paying);
      AttemptsDiligent(s1, order[1..], ins[1..], j, paying);
    }
  }

  lemma TakeBlockDiligent(s: State, j: Id, paying: bool)
    requires Diligent(s, j, paying)
    ensures Diligent(TakeBlock(s), j, paying)
  {
    hide Admitted;
  }

  lemma BlockDiligent(s: State, order: seq<Id>, ins: seq<Inputs>, j: Id, paying: bool)
    requires Inv(s, {}) && s.now < U32_MAX && Shuffles(s, order) && |order| == |ins| && Diligent(s, j, paying)
    requires paying ==> forall i :: 0 <= i < |ins| ==> Charges(ins[i])
    ensures Diligent(OnInitialize(s, order, ins), j, paying)
  {
    hide Attempts, Inv, Diligent, Charges;
    BlockStart(s, order);
    TakeBlockDiligent(s, j, paying);
    AttemptsDiligent(TakeBlock(s), order, ins, j, paying);
  }

  lemma AcceptedIsAdmitted(s: State, who: Account, sch: Schedule, start: Option<Block>, c: CallInput)
    requires ScheduleCall(s, who, sch, start, c).Ok?
    ensures Admitted(s.cfg, sch)
  {
    hide Plan, FirstBlock;
    assert ReserveFor(s.cfg, sch, c).1.None?;
  }

  lemma CreateDiligent(s: State, who: Account, sch: Schedule, start: Option<Block>, c: CallInput, j: Id, paying: bool)
    requires ScheduleCall(s, who, sch, start, c).Ok? && Diligent(s, j, paying)
    ensures Diligent(ScheduleCall(s, who, sch, start, c).state, j, paying)
  {
    hide ScheduleCall, Admitted;
    var reserve, balance, requested, b := ScheduleShape(s, who, sch, start, c);
    AcceptedIsAdmitted(s, who, sch, start, c);
    CreatedDiligent(s, sch, reserve, balance, requested, b, j, paying);
  }

  lemma CreatedDiligent(s: State, sch: Schedule, reserve: nat, balance: Balance, requested: Block, b: Block, j: Id, paying: bool)
    requires Diligent(s, j, paying) && Admitted(s.cfg, sch)
    ensures Diligent(CreatedAt(s, sch, reserve, balance, requested, b), j, paying)
  {
    hide Admitted;
    var s', planned := CreatedAt(s, sch, reserve, balance, requested, b), Then(s.log, ExecutionPlanned(s.nextId, First, s.now, requested, b));
    assert s'.log == Then(planned, Scheduled(s.nextId, sch.total, reserve));
    assert HistoryOf(planned, j) == HistoryOf(s.log, j);
    if j != s.nextId {
      assert HistoryOf(s'.log, j) == HistoryOf(s.log, j);
    } else {
      assert HistoryOf(s'.log, j) == BLANK.(total := sch.total, reserve := reserve);
    }
  }

  lemma CancelDiligent(s: State, id: Id, b: Block, j: Id, paying: bool)
    requires id in s.schedules && Diligent(s, j, paying)
    ensures Diligent(Terminate(Unplan(s, id, b), id), j, paying)
  {
    var u := Unplan(s, id, b);
    assert Diligent(u, j, paying);
    EndedEffect(u, id, Terminated(id));
    EndTerms(u, id, Terminated(id));
    hide Terminate, Diligent;
    if j != id {
      assert Untouched(u, Terminate(u, id), j);
      UntouchedDiligent(u, Terminate(u, id), j, paying);
    } else {
      GoneIsDiligent(Terminate(u, id), id, paying);
    }
  }

  lemma GoneIsDiligent(s: State, id: Id, paying: bool)
    requires id !in s.schedules
    ensures Diligent(s, id, paying)
  {}

  lemma SetBalanceDiligent(s: State, k: Key, b: Balance, j: Id, paying: bool)
    requires Diligent(s, j, paying)
    ensures Diligent(SetBalance(s, k, b), j, paying)
  {
    hide Admitted;
  }

  /** Every fee named in the block's inputs is above zero. */
  ghost predicate Paying(a: Action) {
    a.NewBlock? ==> forall i :: 0 <= i < |a.ins| ==> Charges(a.ins[i])
  }

  lemma StepDiligent(s: State, a: Action, j: Id, paying: bool)
    requires Inv(s, {}) && Enabled(s, a) && Diligent(s, j, paying) && (paying ==> Paying(a))
    ensures Diligent(Step(s, a), j, paying)
  {
    hide Inv, Diligent, Charges, ScheduleCall, OnInitialize, Terminate, Unplan;
    match a
    case NewBlock(order, ins) => BlockDiligent(s, order, ins, j, paying);
    case Create(who, sch, start, c) =>
      if ScheduleCall(s, who, sch, start, c).Ok? {
        CreateDiligent(s, who, sch, start, c, j, paying);
      }
    case Cancel(who, authority, id, at) =>
      if TerminateCall(s, who, authority, id, at).Ok? {
        CancelDiligent(s, id, if at.Some? then at.value else s.execBlock[id], j, paying);
      }
    case Unlock(who, asset) => UnlockFindsNothing(s, {}, who, asset);
    case Elsewhere(k, free, other, frozen) =>
      SetBalanceDiligent(s, k, Balance(free, BalanceAt(s, k).dca, other, frozen), j, paying);
  }

  lemma {:induction false} RunDiligent(states: seq<State>, actions: seq<Action>, n: nat, id: Id, paying: bool)
    requires IsRun(states, actions) && Initial(states[0]) && n < |states|
    requires paying ==> forall i :: 0 <= i < n ==> Paying(actions[i])
    ensures Diligent(states[n], id, paying)
  {
    hide Inv, Diligent, Paying, Step, Enabled;
    if n == 0 {
      GoneIsDiligent(states[0], id, paying);
    } else {
      RunKeeps(states, actions, n - 1);
      RunDiligent(states, actions, n - 1, id, paying);
      StepDiligent(states[n - 1], actions[n - 1], id, paying);
    }
  }

  /**
   * A fixed budget B with at most r retries in a row is over after B * (r + 1) + r attempts that
   * are not bumps, on every run in which fees are above zero; a sell order is so whatever the
   * fees, as long as there is a minimum trade.
   */
  lemma FixedBudgetIsFinite(states: seq<State>, actions: seq<Action>, n: nat, id: Id)
    requires IsRun(states, actions) && Initial(states[0]) && n < |states|
    ensures var s := states[n];
            id in s.schedules && !s.schedules[id].Rolling() &&
            ((forall i :: 0 <= i < n ==> Paying(actions[i])) || (s.schedules[id].order.Sell? && s.cfg.minimumTrade > 0)) ==>
              var r, h := MaxRetries(s.cfg, s.schedules[id]), HistoryOf(s.log, id);
              h.idle == 0 && h.started - h.bumps <= s.schedules[id].total * (r + 1) + r
  {
    assert |states| == |actions| + 1;
    hide IsRun, Initial, HistoryOf, Paying;
    FixedBudgetEnds(states, actions, n, id);
    var paying := forall i :: 0 <= i < n ==> Paying(actions[i]);
    RunDiligent(states, actions, n, id, paying);
  }

  /**
   * The budget is worth what it was accepted for. On every run, as long as a live fixed schedule
   * has drawn no more than one round at the prices of an acceptance, what is left pays another
   * round at those prices, and its reserve holds it; every live schedule has such prices.
   */
  lemma SecondRoundIsFunded(states: seq<State>, actions: seq<Action>, n: nat, id: Id, c: CallInput)
    requires IsRun(states, actions) && Initial(states[0]) && n < |states| && id in states[n].schedules
    ensures Admitted(states[n].cfg, states[n].schedules[id])
    ensures var s, sch, h := states[n], states[n].schedules[id], HistoryOf(states[n].log, id);
            !sch.Rolling() && ReserveFor(s.cfg, sch, c).1.None? && TwoTrades(sch, c) < U128_MAX &&
            h.sold + h.fees <= TradeCost(sch, c) + c.fee.value ==>
              && id in s.remaining
              && TradeCost(sch, c) + c.fee.value <= s.remaining[id] <= BalanceAt(s, sch.SpentFrom()).dca
  {
    var s, sch := states[n], states[n].schedules[id];
    AcceptableIff(s.cfg, sch, c);
    hide ReserveFor, HistoryOf, Planned, Counters;
    RunDiligent(states, actions, n, id, false);
    RunKeeps(states, actions, n);
    ReserveCoversBudget(s, id);
    assert Accounted(s, id);
  }

  /* ---- completion ---- */

  lemma RetryOrTerminateLast(s: State, id: Id, draws: seq<nat>)
    requires id in s.schedules
    ensures RetryOrTerminate(s, id, draws).log.Then? && !RetryOrTerminate(s, id, draws).log.last.Completed?
  {
    hide FreeBlock, Pow2, Refund;
  }

  lemma AfterTradeErrorLast(s: State, id: Id, e: TradeError, draws: seq<nat>)
    requires id in s.schedules && !s.schedules[id].Rolling()
    ensures AfterTradeError(s, id, e, draws).log.Then? && !AfterTradeError(s, id, e, draws).log.last.Completed?
  {
    hide RetryOrTerminate, Refund;
    var s1 := if e.OutOfGas? then IncrementGas(s, id) else s;
    RetryOrTerminateLast(s1, id, draws);
  }

  /** What is worth another round, with an unknown buy price counted as nothing. */
  function Worthwhile(s: State, id: Id, r: ReplanInput): nat
    requires id in s.schedules && r.fee.Some?
  {
    Needed(s.cfg, s.schedules[id], r.fee.value, if r.nextBuyAmountIn.Some? then r.nextBuyAmountIn.value else 0)
  }

  lemma ReplannedLast(s: State, pending: set<Id>, id: Id, r: ReplanInput, draws: seq<nat>)
    requires Inv(s, pending) && id in pending
    ensures Replanned(s, id, r, draws).log.Then?
    ensures Replanned(s, id, r, draws).log.last.Completed? ==>
              && r.fee.Some? && HistoryOf(Replanned(s, id, r, draws).log, id).refunded < Worthwhile(s, id, r)
  {
    hide Inv, FreeBlock, Refund, HistoryOf;
    InvLive(s, pending, id);
    if Decide(s, id, r).Finish? {
      FinishIsShort(s, id, r);
      CompletionRefunds(s, pending, id);
    }
  }

  /** Completing refunds the whole remaining budget, and only that was ever refunded. */
  lemma CompletionRefunds(s: State, pending: set<Id>, id: Id)
    requires Inv(s, pending) && id in s.schedules && id in s.remaining
    ensures HistoryOf(Complete(s, id).log, id).refunded == s.remaining[id]
  {
    hide Planned, Reserves, Counters, HistoryOf, Refund;
    assert Accounted(s, id);
    ReserveCoversBudget(s, id);
    EndShape(s, id, Completed(id));
    EndedHistory(s.log, id, s.remaining[id], Completed(id));
  }

  lemma FinishIsShort(s: State, id: Id, r: ReplanInput)
    requires id in s.schedules && Decide(s, id, r).Finish?
    ensures id in s.remaining && r.fee.Some? && s.remaining[id] < Worthwhile(s, id, r)
  {}

  lemma TradeLast(s: State, pending: set<Id>, id: Id, in_: Inputs)
    requires Inv(s, pending) && id in pending && !s.schedules[id].Rolling()
    ensures Trade(s, id, in_).log.Then?
    ensures Trade(s, id, in_).log.last.Completed? ==>
              && in_.replan.fee.Some?
              && HistoryOf(Trade(s, id, in_).log, id).refunded < Worthwhile(s, id, in_.replan)
  {
    InvLive(s, pending, id);
    hide Inv, ExecuteTrade, AfterTradeError, Replanned, HistoryOf, Spent;
    match ExecuteTrade(s, id, in_.trade)
    case NotTraded(e) => AfterTradeErrorLast(s, id, e, in_.draws);
    case Traded(m, amountIn) =>
      TradeFields(s, id, in_.trade);
      TradeSpent(s, id, in_.trade);
      var s1 := Recorded(m, id, amountIn);
      SpentKeeps(s, s1, pending, id, amountIn, TradeExecuted(id, amountIn), s.retries - {id});
      ReplannedLast(s1, pending, id, in_.replan, in_.draws);
  }

  /**
   * An attempt that completes a fixed-budget schedule refunds less than another round is worth at
   * the prices of the moment; nothing else completes one.
   */
  lemma CompletedIsExhausted(s: State, pending: set<Id>, id: Id, in_: Inputs)
    requires Inv(s, pending) && id in pending && id in s.schedules && !s.schedules[id].Rolling()
    requires Attempt(s, id, in_).log.Then? && Attempt(s, id, in_).log.last.Completed?
    ensures in_.replan.fee.Some?
    ensures HistoryOf(Attempt(s, id, in_).log, id).refunded < Worthwhile(s, id, in_.replan)
  {
    hide Inv, TakeFee, RetryOrTerminate, Trade, HistoryOf, Spent, FreeBlock, Refund;
    var s0 := Emit(s, ExecutionStarted(id, s.now));
    NotedKeeps(s, pending, id, ExecutionStarted(id, s.now));
    if !in_.bump {
      match TakeFee(s0, id, in_.fee)
      case FeeError =>
      case FeeOutOfGas => RetryOrTerminateLast(IncrementGas(s0, id), id, in_.draws);
      case FeePaid(s1) =>
        FeeIsKnown(s0, id, in_.fee);
        FeeFields(s0, id, in_.fee);
        FeeSpent(s0, id, in_.fee);
        SpentKeeps(s0, s1, pending, id, in_.fee.budgeted.value, FeeTaken(id, in_.fee.budgeted.value, PaidOf(in_.fee)), s0.retries);
        RetryOrTerminateLast(s1, id, in_.draws);
        TradeLast(s1, pending, id, in_);
    }
  }
}
