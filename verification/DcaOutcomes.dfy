/** Which schedules are accepted, and exactly when one survives an attempt. */
module DcaOutcomes {
  import opened Common
  import opened Ledger
  import opened DcaModel
  import opened DcaInvariant
  import opened DcaAttemptLaws
  import opened DcaTermination
  import opened DcaTheorems

  /* ---- acceptance ---- */

  /** All prices the checks need are known. */
  predicate Priced(sch: Schedule, c: CallInput) {
    c.minBudget.Some? && c.fee.Some? && (sch.order.Buy? ==> c.buyAmountIn.Some?)
  }

  function TradeCost(sch: Schedule, c: CallInput): nat
    requires Priced(sch, c)
  {
    if sch.order.Sell? then sch.order.amountIn else c.buyAmountIn.value
  }

  /** What two executions of the order cost, fees included, in saturating u128 arithmetic. */
  function TwoTrades(sch: Schedule, c: CallInput): nat
    requires Priced(sch, c)
  {
    Min(2 * (TradeCost(sch, c) + c.fee.value), U128_MAX)
  }

  /**
   * A schedule passes the checks exactly when its prices are known, its terms are within the
   * limits, one trade is worth twenty fees, and the budget is worth the minimum and two trades;
   * a fixed budget is then reserved in full and a rolling one reserves two trades.
   */
  lemma AcceptableIff(cfg: Config, sch: Schedule, c: CallInput)
    ensures var (reserve, refusal) := ReserveFor(cfg, sch, c);
            && (refusal.None? <==>
                  && Priced(sch, c)
                  && sch.period >= cfg.minimalPeriod
                  && (sch.stabilityThreshold.Some? ==> sch.stabilityThreshold.value <= cfg.maxThreshold)
                  && TradeCost(sch, c) >= Max(Min(FEE_MULTIPLIER * c.fee.value, U128_MAX), cfg.minimumTrade)
                  && (if sch.Rolling() then TwoTrades(sch, c) >= c.minBudget.value
                      else sch.total >= Max(c.minBudget.value, TwoTrades(sch, c))))
            && (refusal.None? ==> reserve == if sch.Rolling() then TwoTrades(sch, c) else sch.total)
  {}

  /* ---- after a failed trade ---- */

  /** A failed trade leaves the schedule alive exactly if a retry may help, that is unless funds or anything unforeseen are missing, and can be planned. */
  lemma FailureSurvivesIff(s: State, id: Id, e: TradeError, draws: seq<nat>)
    requires id in s.schedules
    ensures id in AfterTradeError(s, id, e, draws).schedules <==>
              e != FundsUnavailable && e != OtherError && RetryPossible(s, id, draws)
  {
    hide RetryOrTerminate, RetryPossible, End;
    var s1 := if e.OutOfGas? then IncrementGas(s, id) else s;
    EndTerms(s, id, Completed(id));
    EndTerms(Emit(s1, TradeFailed(id)), id, Terminated(id));
    RetrySurvivesIff(s1, id, draws);
    GasIsNoObstacle(s, id, draws);
  }

  lemma GasIsNoObstacle(s: State, id: Id, draws: seq<nat>)
    requires id in s.schedules
    ensures RetryPossible(IncrementGas(s, id), id, draws) == RetryPossible(s, id, draws)
  {
    hide FreeBlock, Pow2;
  }

  /* ---- after a successful trade ---- */

  /** What the rest of the budget must at least be worth for another round. */
  function Needed(cfg: Config, sch: Schedule, fee: nat, nextBuy: nat): nat {
    var least := Max(Min(FEE_MULTIPLIER * fee, U128_MAX), cfg.minimumTrade);
    if sch.order.Buy? && !sch.Rolling() then Max(least, nextBuy + fee) else least
  }

  /**
   * After a success, with the next round priced, the schedule goes on exactly if what is left of
   * its budget is worth it, nothing overflows, and a block a period later can be found.
   */
  lemma SuccessSurvivesIff(s: State, id: Id, fee: nat, nextBuy: nat, draws: seq<nat>)
    requires id in s.schedules && id in s.remaining
    ensures var sch := s.schedules[id];
            id in Replanned(s, id, ReplanInput(Some(fee), Some(nextBuy)), draws).schedules <==>
              && s.remaining[id] >= Needed(s.cfg, sch, fee, nextBuy)
              && (sch.order.Buy? && !sch.Rolling() ==> nextBuy + fee <= U128_MAX)
              && 0 < sch.period && s.now + sch.period <= U32_MAX
              && FreeBlock(s.idsPerBlock, s.cfg.maxPerBlock, s.now + sch.period, draws, 0).Some?
  {
    hide FreeBlock, End;
    EndTerms(s, id, Completed(id));
    EndTerms(s, id, Terminated(id));
  }

  /**
   * A sell order that can no longer sell its full amount sells all that is left, and that is its
   * last trade: nothing remains to refund and the schedule is gone.
   */
  lemma PartialSellIsTheLast(s: State, id: Id, in_: Inputs)
    requires id in s.schedules && id in s.remaining && !s.schedules[id].Rolling() && s.schedules[id].order.Sell?
    requires ExecuteTrade(s, id, in_.trade).Traded? && s.cfg.minimumTrade > 0
    ensures var r := ExecuteTrade(s, id, in_.trade);
            && id in r.state.remaining
            && r.amountIn == Min(s.remaining[id], s.schedules[id].order.amountIn)
            && (r.amountIn < s.schedules[id].order.amountIn ==>
                  r.state.remaining[id] == 0 && id !in Trade(s, id, in_).schedules)
  {
    var r := ExecuteTrade(s, id, in_.trade);
    TradedFields(s, id, in_.trade, r.state, r.amountIn);
    TradeFields(s, id, in_.trade);
    SoldAmount(s, id, in_.trade);
    hide ExecuteTrade, Replanned, AfterTradeError;
    if r.amountIn < s.schedules[id].order.amountIn {
      EmptyEnds(Recorded(r.state, id, r.amountIn), id, in_.replan, in_.draws);
    }
  }

  lemma SoldAmount(s: State, id: Id, t: TradeInput)
    requires id in s.schedules && id in s.remaining && s.schedules[id].order.Sell?
    requires ExecuteTrade(s, id, t).Traded?
    ensures ExecuteTrade(s, id, t).amountIn == Min(s.remaining[id], s.schedules[id].order.amountIn)
  {
    hide Unallocate, Move;
  }

  lemma EmptyEnds(s: State, id: Id, r: ReplanInput, draws: seq<nat>)
    requires id in s.schedules && id in s.remaining && s.remaining[id] == 0 && s.cfg.minimumTrade > 0
    ensures id !in Replanned(s, id, r, draws).schedules
  {
    hide End, Plan;
    EndTerms(s, id, Completed(id));
    EndTerms(s, id, Terminated(id));
  }
}
