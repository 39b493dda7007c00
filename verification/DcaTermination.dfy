/**
 * A fixed-budget schedule ends. The measure is the number of unbumped attempts plus the
 * budget and retries left, weighted so that no attempt raises it.
 */
module DcaTermination {
  import opened Common
  import opened Ledger
  import opened DcaModel
  import opened DcaInvariant
  import opened DcaSteps
  import opened DcaAttempt
  import opened DcaAttemptLaws
  import opened DcaRuns

  /** One more than the retries the schedule may use in a row. */
  function Weight(s: State, id: Id): nat
    requires id in s.schedules
  {
    MaxRetries(s.cfg, s.schedules[id]) + 1
  }

  /** Unbumped attempts made, plus what is left to spend and to retry, minus the idle attempts. */
  ghost function Measure(s: State, id: Id): int
    requires id in s.schedules && id in s.remaining
  {
    var h := HistoryOf(s.log, id);
    h.started - h.bumps - RetriesOf(s, id) + Times(s.remaining[id], Weight(s, id)) - Times(h.idle, Weight(s, id))
  }

  /** Present before and after, under the same terms. */
  ghost predicate Stays(s: State, s': State, id: Id) {
    && id in s.schedules && id in s.remaining && id in s'.schedules && id in s'.remaining
    && s'.schedules[id] == s.schedules[id] && s'.cfg == s.cfg
  }

  /** If the schedule is still there, its terms are unchanged and its measure rose by at most `rise`. */
  ghost predicate Within(s: State, s': State, id: Id, rise: int) {
    id in s'.schedules ==> Stays(s, s', id) && Measure(s', id) <= Measure(s, id) + rise
  }

  lemma WithinTrans(s: State, m: State, s': State, id: Id, rise: int, rest: int)
    requires Stays(s, m, id) && Measure(m, id) <= Measure(s, id) + rise && Within(m, s', id, rest)
    ensures Within(s, s', id, rise + rest)
  {}

  lemma ChargedMeasure(s: State, s': State, id: Id, fee: nat, paid: nat)
    requires Stays(s, s', id) && s'.retries == s.retries
    requires s'.log == Then(s.log, FeeTaken(id, fee, paid)) && s'.remaining[id] == s.remaining[id] - fee
    ensures Measure(s', id) <= Measure(s, id) - (if fee > 0 then Weight(s, id) else 0)
    ensures HistoryOf(s'.log, id).lastFee == fee
  {
    var h := HistoryOf(s.log, id);
    var h' := HistoryOf(s'.log, id);
    assert h'.started == h.started && h'.bumps == h.bumps && h'.idle == h.idle;
    TimesGrows(s'.remaining[id], s.remaining[id], Weight(s, id));
  }

  /** A charge above zero costs a whole weight. */
  lemma ChargeLowers(s: State, id: Id, f: FeeInput)
    requires id in s.schedules && id in s.remaining && !s.schedules[id].Rolling() && TakeFee(s, id, f).FeePaid?
    ensures Stays(s, TakeFee(s, id, f).state, id)
    ensures RetriesOf(TakeFee(s, id, f).state, id) == RetriesOf(s, id)
    ensures Measure(TakeFee(s, id, f).state, id) <= Measure(s, id) - (if f.budgeted.value > 0 then Weight(s, id) else 0)
    ensures HistoryOf(TakeFee(s, id, f).state.log, id).lastFee == f.budgeted.value
  {
    FeeFields(s, id, f);
    ChargeFields(s, id, f);
    ChargedMeasure(s, TakeFee(s, id, f).state, id, f.budgeted.value, PaidOf(f));
  }

  lemma ChargeFields(s: State, id: Id, f: FeeInput)
    requires id in s.schedules && id in s.remaining && !s.schedules[id].Rolling() && TakeFee(s, id, f).FeePaid?
    ensures var s' := TakeFee(s, id, f).state;
            id in s'.remaining && s'.remaining[id] == s.remaining[id] - f.budgeted.value && s'.retries == s.retries
  {}

  /** A retry uses up one retry. */
  lemma RetryLowers(s: State, id: Id, draws: seq<nat>)
    requires id in s.schedules && id in s.remaining && Retry(s, id, draws).Some?
    ensures Stays(s, Retry(s, id, draws).value, id)
    ensures Measure(Retry(s, id, draws).value, id) == Measure(s, id) - 1
  {}

  lemma RetryOrTerminateLowers(s: State, id: Id, draws: seq<nat>)
    requires id in s.schedules && id in s.remaining
    ensures Within(s, RetryOrTerminate(s, id, draws), id, -1)
  {
    var failed := Emit(s, TradeFailed(id));
    assert Measure(failed, id) == Measure(s, id);
    if Retry(failed, id, draws).Some? {
      RetryLowers(failed, id, draws);
    }
  }

  lemma TradedFields(s: State, id: Id, t: TradeInput, m: State, amountIn: nat)
    requires id in s.schedules && id in s.remaining && !s.schedules[id].Rolling()
    requires ExecuteTrade(s, id, t) == Traded(m, amountIn)
    ensures id in m.remaining && m.remaining[id] == s.remaining[id] - amountIn && m.retries == s.retries
  {}

  /** A success gives back the retries used so far, and no more; unless the fee was paid for, it costs a weight. */
  lemma RecordedRaises(s: State, id: Id, m: State, amountIn: nat)
    requires id in s.schedules && id in s.remaining && id in m.remaining && m.remaining[id] == s.remaining[id] - amountIn
    requires m.retries == s.retries && m.schedules == s.schedules && m.cfg == s.cfg && m.log == s.log
    ensures Stays(s, Recorded(m, id, amountIn), id)
    ensures Measure(Recorded(m, id, amountIn), id) <=
            Measure(s, id) + RetriesOf(s, id) - (if HistoryOf(s.log, id).lastFee == 0 then Weight(s, id) else 0)
  {
    var h := HistoryOf(s.log, id);
    var s1 := Recorded(m, id, amountIn);
    assert HistoryOf(s1.log, id) == Replay(h, id, TradeExecuted(id, amountIn));
    TimesGrows(s1.remaining[id], s.remaining[id], Weight(s, id));
  }

  lemma NextPeriodSame(s: State, id: Id, requested: Block, draws: seq<nat>)
    requires id in s.schedules && id in s.remaining && Plan(s, id, NextPeriod, requested, draws).Some?
    ensures Within(s, Plan(s, id, NextPeriod, requested, draws).value, id, 0)
  {}

  lemma ReplannedSame(s: State, id: Id, r: ReplanInput, draws: seq<nat>)
    requires id in s.schedules && id in s.remaining
    ensures Within(s, Replanned(s, id, r, draws), id, 0)
  {
    hide Plan, Decide, Measure;
    if Decide(s, id, r).Again? && Plan(s, id, NextPeriod, Decide(s, id, r).block, draws).Some? {
      NextPeriodSame(s, id, Decide(s, id, r).block, draws);
    }
  }

  /** What an attempt may give back once its fee is settled: the retries used, if the fee was above zero. */
  ghost function Rise(s: State, id: Id): int {
    if HistoryOf(s.log, id).lastFee == 0 then -1 else RetriesOf(s, id)
  }

  /** A fixed-budget schedule within its retry limit. */
  ghost predicate Fixed(s: State, id: Id) {
    && id in s.schedules && id in s.remaining && !s.schedules[id].Rolling()
    && RetriesOf(s, id) <= MaxRetries(s.cfg, s.schedules[id])
  }

  lemma TradedRaises(s: State, id: Id, in_: Inputs, m: State, amountIn: nat)
    requires Fixed(s, id) && ExecuteTrade(s, id, in_.trade) == Traded(m, amountIn)
    ensures Within(s, Replanned(Recorded(m, id, amountIn), id, in_.replan, in_.draws), id, Rise(s, id))
  {
    hide ExecuteTrade, Replanned, Recorded, Measure;
    TradeFields(s, id, in_.trade);
    TradedFields(s, id, in_.trade, m, amountIn);
    var s1 := Recorded(m, id, amountIn);
    RecordedRaises(s, id, m, amountIn);
    ReplannedSame(s1, id, in_.replan, in_.draws);
    WithinTrans(s, s1, Replanned(s1, id, in_.replan, in_.draws), id, Rise(s, id), 0);
  }

  lemma GasSame(s: State, id: Id)
    requires id in s.schedules && id in s.remaining
    ensures Stays(s, IncrementGas(s, id), id) && Measure(IncrementGas(s, id), id) == Measure(s, id)
  {}

  lemma OutOfGasLowers(s: State, id: Id, draws: seq<nat>)
    requires id in s.schedules && id in s.remaining
    ensures Within(s, RetryOrTerminate(IncrementGas(s, id), id, draws), id, -1)
  {
    GasSame(s, id);
    RetryOrTerminateLowers(IncrementGas(s, id), id, draws);
    WithinTrans(s, IncrementGas(s, id), RetryOrTerminate(IncrementGas(s, id), id, draws), id, 0, -1);
  }

  lemma AfterTradeErrorLowers(s: State, id: Id, e: TradeError, draws: seq<nat>)
    requires id in s.schedules && id in s.remaining
    ensures Within(s, AfterTradeError(s, id, e, draws), id, -1)
  {
    if e.OutOfGas? {
      OutOfGasLowers(s, id, draws);
    } else if Retriable(e) {
      RetryOrTerminateLowers(s, id, draws);
    }
  }

  lemma TradeRaises(s: State, id: Id, in_: Inputs)
    requires Fixed(s, id)
    ensures Within(s, Trade(s, id, in_), id, Rise(s, id))
  {
    hide ExecuteTrade, Replanned, Recorded, Measure, AfterTradeError;
    match ExecuteTrade(s, id, in_.trade)
    case Traded(m, amountIn) => TradedRaises(s, id, in_, m, amountIn);
    case NotTraded(e) => AfterTradeErrorLowers(s, id, e, in_.draws);
  }

  /** Once the fee is paid, no outcome raises the measure by more than the retries given back. */
  lemma AfterFeeRaises(s: State, id: Id, in_: Inputs)
    requires Fixed(s, id)
    ensures Within(s, AfterFee(s, id, in_), id, Rise(s, id))
  {
    hide Trade, RetryOrTerminate, Measure;
    if in_.unstable {
      RetryOrTerminateLowers(s, id, in_.draws);
    } else {
      TradeRaises(s, id, in_);
    }
  }

  lemma PaidLowers(s: State, s1: State, id: Id, in_: Inputs)
    requires Stays(s, s1, id) && Fixed(s1, id)
    requires Measure(s1, id) <= Measure(s, id) - (if HistoryOf(s1.log, id).lastFee > 0 then Weight(s, id) else 0)
    ensures Within(s, AfterFee(s1, id, in_), id, -1)
  {
    hide AfterFee, Measure;
    AfterFeeRaises(s1, id, in_);
    var drop: nat := if HistoryOf(s1.log, id).lastFee > 0 then Weight(s, id) else 0;
    WithinTrans(s, s1, AfterFee(s1, id, in_), id, 0 - drop, Rise(s1, id));
  }

  lemma ChargeAndTradeLowers(s: State, id: Id, in_: Inputs)
    requires id in s.schedules && id in s.remaining && !s.schedules[id].Rolling()
    requires RetriesOf(s, id) <= MaxRetries(s.cfg, s.schedules[id])
    ensures Within(s, ChargeAndTrade(s, id, in_), id, -1)
  {
    hide TakeFee, RetryOrTerminate, Measure, AfterFee, HistoryOf;
    match TakeFee(s, id, in_.fee)
    case FeeError => EndGas(s, id, Terminated(id));
    case FeeOutOfGas => OutOfGasLowers(s, id, in_.draws);
    case FeePaid(s1) =>
      ChargeLowers(s, id, in_.fee);
      PaidLowers(s, s1, id, in_);
  }

  lemma BumpSame(s: State, id: Id, requested: Block, draws: seq<nat>)
    requires id in s.schedules && id in s.remaining && Plan(s, id, Bumped, requested, draws).Some?
    ensures Within(s, Plan(s, id, Bumped, requested, draws).value, id, -1)
  {}

  /**
   * No attempt raises the measure: a bump is not counted, a charged attempt lowers the
   * budget, and an attempt whose fee payment runs out of gas uses up a retry.
   */
  lemma AttemptLowers(s: State, id: Id, in_: Inputs)
    requires id in s.schedules && id in s.remaining && !s.schedules[id].Rolling()
    requires RetriesOf(s, id) <= MaxRetries(s.cfg, s.schedules[id])
    ensures Within(s, Attempt(s, id, in_), id, 0)
  {
    var s0 := Emit(s, ExecutionStarted(id, s.now));
    assert Stays(s, s0, id) && Measure(s0, id) == Measure(s, id) + 1;
    if in_.bump {
      var next := SatAdd(s.now, 1, U32_MAX);
      if Plan(s0, id, Bumped, next, in_.draws).Some? {
        BumpSame(s0, id, next, in_.draws);
        WithinTrans(s, s0, Attempt(s, id, in_), id, 1, -1);
      }
    } else {
      ChargeAndTradeLowers(s0, id, in_);
      WithinTrans(s, s0, Attempt(s, id, in_), id, 1, -1);
    }
  }
}
