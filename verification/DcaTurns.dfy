/** What an execution attempt amounts to, and what follows from it for money, counters, gas and the plan. */
module DcaTurns {
  import opened Common
  import opened Ledger
  import opened DcaModel
  import opened DcaInvariant
  import opened DcaSteps
  import opened DcaAttempt
  import opened DcaAttemptLaws
  import opened DcaMoney
  import opened DcaTheorems

  /** How an attempt goes, up to the point where the schedule is planned again or ended. */
  datatype Turn =
    | Bump               // put off by chance
    | NoFee              // the fee could not be charged
    | NoGasForFee        // charging it ran out of gas
    | Unstable           // charged, but the price moved too much
    | Sold(amountIn: nat)
    | Refused(error: TradeError)

  function TurnOf(s: State, id: Id, in_: Inputs): Turn
    requires id in s.schedules
  {
    if in_.bump then Bump
    else
      match TakeFee(s, id, in_.fee)
      case FeeError => NoFee
      case FeeOutOfGas => NoGasForFee
      case FeePaid(s1) =>
        FeeFrame(s, id, in_.fee);
        if in_.unstable then Unstable
        else
          match ExecuteTrade(s1, id, in_.trade)
          case Traded(_, amountIn) => Sold(amountIn)
          case NotTraded(e) => Refused(e)
  }

  predicate FeeCharged(t: Turn) {
    t.Unstable? || t.Sold? || t.Refused?
  }

  /* ---- what charging and trading leave alone ---- */

  lemma FeeFrame(s: State, id: Id, f: FeeInput)
    requires id in s.schedules && TakeFee(s, id, f).FeePaid?
    ensures f.budgeted.Some?
    ensures var s' := TakeFee(s, id, f).state;
            s' == s.(remaining := s'.remaining, ledger := s'.ledger, transientGas := 0,
                     log := Then(s.log, FeeTaken(id, f.budgeted.value, PaidOf(f))))
  {
    FeeIsKnown(s, id, f);
    UnallocateFrame(WithGas(s, id), id, f.budgeted.value);
    hide Unallocate, Move;
  }

  lemma TradeFrame(s: State, id: Id, t: TradeInput)
    requires id in s.schedules && ExecuteTrade(s, id, t).Traded?
    ensures var s' := ExecuteTrade(s, id, t).state;
            s' == s.(remaining := s'.remaining, ledger := s'.ledger, transientGas := 0)
  {
    UnallocateFrame(WithGas(s, id), id, TradeAmount(s, id, t).amount);
    hide Unallocate, Move;
  }

  /* ---- the record and the accounts beside the sold asset's ---- */

  /** Nothing sold or paid is added to the record, and the account `k`, if not `own`, is untouched. */
  ghost predicate Quietly(s: State, s': State, id: Id, own: Key, k: Key) {
    && HistoryOf(s'.log, id).sold == HistoryOf(s.log, id).sold
    && HistoryOf(s'.log, id).paid == HistoryOf(s.log, id).paid
    && (k != own ==> BalanceAt(s', k) == BalanceAt(s, k))
  }

  lemma QuietlyTrans(s: State, m: State, s': State, id: Id, own: Key, k: Key)
    requires Quietly(s, m, id, own, k) && Quietly(m, s', id, own, k)
    ensures Quietly(s, s', id, own, k)
  {}

  lemma QuietEvent(s: State, s': State, id: Id, own: Key, k: Key, e: Event)
    requires Quiet(e) && s'.log == Then(s.log, e) && s'.ledger == s.ledger
    ensures Quietly(s, s', id, own, k)
  {}

  lemma SameLogAndLedger(s: State, s': State, id: Id, own: Key, k: Key)
    requires s'.log == s.log && s'.ledger == s.ledger
    ensures Quietly(s, s', id, own, k)
  {}

  lemma EndQuietly(s: State, id: Id, e: Event, k: Key)
    requires id in s.schedules && Quiet(e)
    ensures Quietly(s, End(s, id, e), id, s.schedules[id].SpentFrom(), k)
  {
    RefundQuietly(s, id, k);
    QuietEvent(Refund(s, id), End(s, id, e), id, s.schedules[id].SpentFrom(), k, e);
    hide Refund, End;
    QuietlyTrans(s, Refund(s, id), End(s, id, e), id, s.schedules[id].SpentFrom(), k);
  }

  lemma RefundQuietly(s: State, id: Id, k: Key)
    requires id in s.schedules
    ensures Quietly(s, Refund(s, id), id, s.schedules[id].SpentFrom(), k)
  {
    if id in s.remaining {
      hide Unreserve, At, HistoryOf, Min;
      var own := s.schedules[id].SpentFrom();
      SetAt(s.ledger, own, Unreserve(BalanceAt(s, own), s.remaining[id]), k);
      RecordAdds(s.log, id, Unreserved(id, Min(s.remaining[id], BalanceAt(s, own).dca)));
    }
  }

  lemma PlanQuietly(s: State, id: Id, reason: Reason, requested: Block, draws: seq<nat>, own: Key, k: Key)
    requires Plan(s, id, reason, requested, draws).Some?
    ensures Quietly(s, Plan(s, id, reason, requested, draws).value, id, own, k)
  {
    hide FreeBlock, Quietly;
    var b := FreeBlock(s.idsPerBlock, s.cfg.maxPerBlock, requested, draws, 0).value;
    QuietEvent(s, PlacedAt(s, id, reason, requested, b), id, own, k, ExecutionPlanned(id, reason, s.now, requested, b));
  }

  lemma RetryOrTerminateQuietly(s: State, id: Id, draws: seq<nat>, k: Key)
    requires id in s.schedules
    ensures Quietly(s, RetryOrTerminate(s, id, draws), id, s.schedules[id].SpentFrom(), k)
  {
    hide Plan, End, Quietly, Pow2;
    var own, failed, n := s.schedules[id].SpentFrom(), Emit(s, TradeFailed(id)), RetriesOf(s, id);
    QuietEvent(s, failed, id, own, k, TradeFailed(id));
    if Retry(failed, id, draws).Some? {
      var counted := failed.(retries := failed.retries[id := n + 1]);
      SameLogAndLedger(failed, counted, id, own, k);
      PlanQuietly(counted, id, Retried, RetryBlock(s.now, n).value, draws, own, k);
      QuietlyTrans(failed, counted, RetryOrTerminate(s, id, draws), id, own, k);
    } else {
      EndQuietly(failed, id, Terminated(id), k);
    }
    QuietlyTrans(s, failed, RetryOrTerminate(s, id, draws), id, own, k);
  }

  lemma ReplannedQuietly(s: State, id: Id, r: ReplanInput, draws: seq<nat>, k: Key)
    requires id in s.schedules
    ensures Quietly(s, Replanned(s, id, r, draws), id, s.schedules[id].SpentFrom(), k)
  {
    hide Plan, End, Decide, Quietly;
    EndQuietly(s, id, Completed(id), k);
    EndQuietly(s, id, Terminated(id), k);
    var d := Decide(s, id, r);
    if d.Again? && Plan(s, id, NextPeriod, d.block, draws).Some? {
      PlanQuietly(s, id, NextPeriod, d.block, draws, s.schedules[id].SpentFrom(), k);
    }
  }

  lemma AfterTradeErrorQuietly(s: State, id: Id, e: TradeError, draws: seq<nat>, k: Key)
    requires id in s.schedules
    ensures Quietly(s, AfterTradeError(s, id, e, draws), id, s.schedules[id].SpentFrom(), k)
  {
    hide RetryOrTerminate, End, Quietly;
    var own, s1 := s.schedules[id].SpentFrom(), if e.OutOfGas? then IncrementGas(s, id) else s;
    EndQuietly(s, id, Completed(id), k);
    SameLogAndLedger(s, s1, id, own, k);
    RetryOrTerminateQuietly(s1, id, draws, k);
    var failed := Emit(s1, TradeFailed(id));
    QuietEvent(s1, failed, id, own, k, TradeFailed(id));
    EndQuietly(failed, id, Terminated(id), k);
    QuietlyTrans(s1, failed, End(failed, id, Terminated(id)), id, own, k);
    QuietlyTrans(s, s1, RetryOrTerminate(s1, id, draws), id, own, k);
    QuietlyTrans(s, s1, End(failed, id, Terminated(id)), id, own, k);
  }

  /** The account of the bought asset. */
  function Bought(sch: Schedule): Key {
    (sch.owner, sch.order.assetOut)
  }

  /** `paid` and `sold` are added to the record, and `got` to the free balance of the bought asset. */
  ghost predicate Adds(s: State, s': State, id: Id, k: Key, paid: nat, sold: nat, got: nat) {
    && HistoryOf(s'.log, id).paid == HistoryOf(s.log, id).paid + paid
    && HistoryOf(s'.log, id).sold == HistoryOf(s.log, id).sold + sold
    && Changed(BalanceAt(s, k), BalanceAt(s', k), got, 0)
  }

  lemma AddsThen(s: State, m: State, s': State, id: Id, own: Key, k: Key, paid: nat, sold: nat, got: nat)
    requires Adds(s, m, id, k, paid, sold, got) && Quietly(m, s', id, own, k) && k != own
    ensures Adds(s, s', id, k, paid, sold, got)
  {}

  lemma AddsAfter(s: State, m: State, s': State, id: Id, k: Key, paid: nat, sold: nat, got: nat)
    requires Adds(s, m, id, k, paid, 0, 0) && Adds(m, s', id, k, 0, sold, got)
    ensures Adds(s, s', id, k, paid, sold, got)
  {}

  lemma QuietlyAdds(s: State, s': State, id: Id, own: Key, k: Key)
    requires Quietly(s, s', id, own, k) && k != own
    ensures Adds(s, s', id, k, 0, 0, 0)
  {}

  /** A move changes no third account. */
  lemma MoveElsewhere(ledger: map<Key, Balance>, from: Key, amount: nat, to: Option<Key>, credit: nat, k: Key)
    requires Move(ledger, from, amount, to, credit).Some? && k != from && to != Some(k)
    ensures At(Move(ledger, from, amount, to, credit).value, k) == At(ledger, k)
  {
    hide Withdraw;
  }

  lemma FeeAdds(s: State, id: Id, f: FeeInput, k: Key)
    requires id in s.schedules && TakeFee(s, id, f).FeePaid? && k.1 != s.schedules[id].order.assetIn
    ensures f.budgeted.Some? && Adds(s, TakeFee(s, id, f).state, id, k, PaidOf(f), 0, 0)
  {
    hide Unallocate, Move, HistoryOf, At;
    FeeFrame(s, id, f);
    var s0, own := WithGas(s, id), s.schedules[id].SpentFrom();
    UnallocateAt(s0, id, f.budgeted.value, k);
    MoveElsewhere(Unallocate(s0, id, f.budgeted.value).value.ledger, own, PaidOf(f),
                  if f.sufficientAsset then Some((s.cfg.treasury, own.1)) else None, PaidOf(f), k);
    RecordAdds(s.log, id, FeeTaken(id, f.budgeted.value, PaidOf(f)));
  }

  lemma SaleAdds(s: State, id: Id, t: TradeInput, k: Key)
    requires id in s.schedules && ExecuteTrade(s, id, t).Traded?
    requires k == Bought(s.schedules[id]) && s.schedules[id].order.assetOut != s.schedules[id].order.assetIn
    ensures var r := ExecuteTrade(s, id, t);
            Adds(s, Recorded(r.state, id, r.amountIn), id, k, 0, r.amountIn, t.amountOut)
  {
    hide Unallocate, Move, HistoryOf, At;
    TradeFrame(s, id, t);
    var s0, own, amount := WithGas(s, id), s.schedules[id].SpentFrom(), TradeAmount(s, id, t).amount;
    UnallocateAt(s0, id, amount, k);
    MoveAt(Unallocate(s0, id, amount).value.ledger, own, amount, Some(k), t.amountOut, k);
    RecordAdds(s.log, id, TradeExecuted(id, amount));
  }

  lemma TradeAdds(s: State, id: Id, in_: Inputs, k: Key)
    requires id in s.schedules && k == Bought(s.schedules[id]) && s.schedules[id].order.assetOut != s.schedules[id].order.assetIn
    ensures var r := ExecuteTrade(s, id, in_.trade);
            Adds(s, Trade(s, id, in_), id, k, 0, if r.Traded? then r.amountIn else 0, if r.Traded? then in_.trade.amountOut else 0)
  {
    hide ExecuteTrade, Replanned, AfterTradeError, Adds, Quietly;
    var own := s.schedules[id].SpentFrom();
    match ExecuteTrade(s, id, in_.trade)
    case Traded(m, amountIn) =>
      TradeFrame(s, id, in_.trade);
      SaleAdds(s, id, in_.trade, k);
      var s1 := Recorded(m, id, amountIn);
      ReplannedQuietly(s1, id, in_.replan, in_.draws, k);
      AddsThen(s, s1, Trade(s, id, in_), id, own, k, 0, amountIn, in_.trade.amountOut);
    case NotTraded(e) =>
      AfterTradeErrorQuietly(s, id, e, in_.draws, k);
      QuietlyAdds(s, Trade(s, id, in_), id, own, k);
  }

  lemma ChargeAndTradeAdds(s: State, id: Id, in_: Inputs, k: Key)
    requires id in s.schedules && k == Bought(s.schedules[id]) && s.schedules[id].order.assetOut != s.schedules[id].order.assetIn
    requires !in_.bump
    ensures var t := TurnOf(s, id, in_);
            && (FeeCharged(t) ==> in_.fee.budgeted.Some?)
            && Adds(s, ChargeAndTrade(s, id, in_), id, k, if FeeCharged(t) then PaidOf(in_.fee) else 0,
                    if t.Sold? then t.amountIn else 0, if t.Sold? then in_.trade.amountOut else 0)
  {
    hide TakeFee, RetryOrTerminate, Trade, End, Adds, Quietly, IncrementGas, ExecuteTrade;
    var own, s' := s.schedules[id].SpentFrom(), ChargeAndTrade(s, id, in_);
    match TakeFee(s, id, in_.fee)
    case FeeError =>
      EndQuietly(s, id, Terminated(id), k);
      QuietlyAdds(s, s', id, own, k);
    case FeeOutOfGas =>
      GasAccounts(s, id, s.schedules[id], k);
      GasQuietly(s, id, own, k);
      RetryOrTerminateQuietly(IncrementGas(s, id), id, in_.draws, k);
      QuietlyTrans(s, IncrementGas(s, id), s', id, own, k);
      QuietlyAdds(s, s', id, own, k);
    case FeePaid(s1) =>
      FeeFrame(s, id, in_.fee);
      FeeAdds(s, id, in_.fee, k);
      if in_.unstable {
        RetryOrTerminateQuietly(s1, id, in_.draws, k);
        AddsThen(s, s1, s', id, own, k, PaidOf(in_.fee), 0, 0);
      } else {
        TradeAdds(s1, id, in_, k);
        var r := ExecuteTrade(s1, id, in_.trade);
        AddsAfter(s, s1, s', id, k, PaidOf(in_.fee), if r.Traded? then r.amountIn else 0, if r.Traded? then in_.trade.amountOut else 0);
      }
  }

  lemma GasQuietly(s: State, id: Id, own: Key, k: Key)
    requires id in s.schedules
    ensures Quietly(s, IncrementGas(s, id), id, own, k)
  {}

  lemma BumpQuietly(s: State, id: Id, in_: Inputs, k: Key)
    requires id in s.schedules && in_.bump
    ensures Quietly(s, Attempt(s, id, in_), id, s.schedules[id].SpentFrom(), k)
  {
    hide Plan, End, Quietly;
    var own, e := s.schedules[id].SpentFrom(), ExecutionStarted(id, s.now);
    var s0, requested := Emit(s, e), SatAdd(s.now, 1, U32_MAX);
    QuietEvent(s, s0, id, own, k, e);
    EndQuietly(s0, id, Terminated(id), k);
    if Plan(s0, id, Bumped, requested, in_.draws).Some? {
      PlanQuietly(s0, id, Bumped, requested, in_.draws, own, k);
    }
    QuietlyTrans(s, s0, Attempt(s, id, in_), id, own, k);
  }

  /** The state in which an attempt is decided: its start is on record. */
  function Started(s: State, id: Id): State {
    Emit(s, ExecutionStarted(id, s.now))
  }

  /**
   * What an attempt adds to the record and to the owner's account of the bought asset: the fee
   * exactly if it was charged, and the trade exactly if it was charged, the price was stable and
   * the trade went through; in every other turn nothing is sold or bought.
   */
  lemma AttemptAdds(s: State, id: Id, in_: Inputs)
    requires id in s.schedules && s.schedules[id].order.assetOut != s.schedules[id].order.assetIn
    ensures var t, k := TurnOf(Started(s, id), id, in_), Bought(s.schedules[id]);
            && (FeeCharged(t) ==> in_.fee.budgeted.Some? && !in_.bump)
            && (t.Sold? ==> !in_.unstable)
            && Adds(s, Attempt(s, id, in_), id, k, if FeeCharged(t) then PaidOf(in_.fee) else 0,
                    if t.Sold? then t.amountIn else 0, if t.Sold? then in_.trade.amountOut else 0)
  {
    hide ChargeAndTrade, Plan, End, Quietly, Adds, TakeFee, ExecuteTrade;
    var s0, k, own := Started(s, id), Bought(s.schedules[id]), s.schedules[id].SpentFrom();
    if in_.bump {
      BumpQuietly(s, id, in_, k);
      QuietlyAdds(s, Attempt(s, id, in_), id, own, k);
    } else {
      ChargeAndTradeAdds(s0, id, in_, k);
      QuietEvent(s, s0, id, own, k, ExecutionStarted(id, s.now));
      StartAdds(s, s0, Attempt(s, id, in_), id, own, k, TurnOf(s0, id, in_), in_);
    }
  }

  lemma StartAdds(s: State, s0: State, s': State, id: Id, own: Key, k: Key, t: Turn, in_: Inputs)
    requires Quietly(s, s0, id, own, k) && k != own && (FeeCharged(t) ==> in_.fee.budgeted.Some?)
    requires Adds(s0, s', id, k, if FeeCharged(t) then PaidOf(in_.fee) else 0,
                  if t.Sold? then t.amountIn else 0, if t.Sold? then in_.trade.amountOut else 0)
    ensures Adds(s, s', id, k, if FeeCharged(t) then PaidOf(in_.fee) else 0,
                 if t.Sold? then t.amountIn else 0, if t.Sold? then in_.trade.amountOut else 0)
  {}

  /* ---- where a survivor waits ---- */

  /** If the schedule is still there: its planned block is the first free one from `requested` on, and these are its counters. */
  ghost predicate Waits(s: State, s': State, id: Id, requested: Block, draws: seq<nat>, retries: nat, gas: nat) {
    id in s'.schedules ==>
      && id in s'.execBlock
      && FreeBlock(s.idsPerBlock, s.cfg.maxPerBlock, requested, draws, 0) == Some(s'.execBlock[id])
      && RetriesOf(s', id) == retries && GasOf(s', id) == gas
  }

  lemma PlanWaits(s: State, id: Id, reason: Reason, requested: Block, draws: seq<nat>)
    requires Plan(s, id, reason, requested, draws).Some?
    ensures Waits(s, Plan(s, id, reason, requested, draws).value, id, requested, draws, RetriesOf(s, id), GasOf(s, id))
  {
    hide FreeBlock;
  }

  lemma EndWaits(s: State, t: State, id: Id, e: Event, requested: Block, draws: seq<nat>, retries: nat, gas: nat)
    requires id in s.schedules
    ensures Waits(t, End(s, id, e), id, requested, draws, retries, gas)
  {
    EndTerms(s, id, e);
    hide End, FreeBlock;
  }

  lemma RetryOrTerminateWaits(s: State, id: Id, draws: seq<nat>)
    requires id in s.schedules
    ensures var k := RetriesOf(s, id);
            Waits(s, RetryOrTerminate(s, id, draws), id, s.now + RETRY_PERIOD * Pow2(k), draws, k + 1, GasOf(s, id))
  {
    hide Plan, End, FreeBlock, Pow2;
    var k, failed := RetriesOf(s, id), Emit(s, TradeFailed(id));
    EndWaits(failed, s, id, Terminated(id), s.now + RETRY_PERIOD * Pow2(k), draws, k + 1, GasOf(s, id));
    if Retry(failed, id, draws).Some? {
      PlanWaits(failed.(retries := failed.retries[id := k + 1]), id, Retried, RetryBlock(s.now, k).value, draws);
    }
  }

  lemma ReplannedWaits(s: State, id: Id, r: ReplanInput, draws: seq<nat>)
    requires id in s.schedules
    ensures Waits(s, Replanned(s, id, r, draws), id, s.now + s.schedules[id].period, draws, RetriesOf(s, id), GasOf(s, id))
  {
    hide Plan, End, FreeBlock;
    var requested, k, g := s.now + s.schedules[id].period, RetriesOf(s, id), GasOf(s, id);
    EndWaits(s, s, id, Completed(id), requested, draws, k, g);
    EndWaits(s, s, id, Terminated(id), requested, draws, k, g);
    if Decide(s, id, r).Again? && Plan(s, id, NextPeriod, requested, draws).Some? {
      PlanWaits(s, id, NextPeriod, requested, draws);
    }
  }

  /** One increment: a million shared out over the retries, never past a million in all. */
  function NextGas(gas: nat, maxRetries: nat): nat {
    if maxRetries == 0 then gas else Min(gas + 1_000_000 / maxRetries, 1_000_000)
  }

  lemma GasStep(s: State, id: Id)
    requires id in s.schedules
    ensures var s' := IncrementGas(s, id);
            && GasOf(s', id) == NextGas(GasOf(s, id), MaxRetries(s.cfg, s.schedules[id]))
            && s' == s.(extraGas := s'.extraGas)
  {}

  lemma AfterTradeErrorWaits(s: State, id: Id, e: TradeError, draws: seq<nat>)
    requires id in s.schedules
    ensures var k := RetriesOf(s, id);
            Waits(s, AfterTradeError(s, id, e, draws), id, s.now + RETRY_PERIOD * Pow2(k), draws, k + 1,
                  if e.OutOfGas? then NextGas(GasOf(s, id), MaxRetries(s.cfg, s.schedules[id])) else GasOf(s, id))
  {
    hide RetryOrTerminate, End, FreeBlock, Pow2, IncrementGas;
    GasStep(s, id);
    var s1 := if e.OutOfGas? then IncrementGas(s, id) else s;
    var k, g := RetriesOf(s, id), GasOf(s1, id);
    EndWaits(s, s, id, Completed(id), s.now + RETRY_PERIOD * Pow2(k), draws, k + 1, g);
    EndWaits(Emit(s1, TradeFailed(id)), s, id, Terminated(id), s.now + RETRY_PERIOD * Pow2(k), draws, k + 1, g);
    RetryOrTerminateWaits(s1, id, draws);
  }

  /** The block a turn asks for, and the failure count and extra gas it leaves. */
  function Requested(s: State, id: Id, t: Turn): Block
    requires id in s.schedules
  {
    match t
    case Bump => SatAdd(s.now, 1, U32_MAX)
    case Sold(_) => s.now + s.schedules[id].period
    case _ => s.now + RETRY_PERIOD * Pow2(RetriesOf(s, id))
  }

  function RetriesAfter(s: State, id: Id, t: Turn): nat {
    match t
    case Bump => RetriesOf(s, id)
    case Sold(_) => 0
    case _ => RetriesOf(s, id) + 1
  }

  function GasAfter(s: State, id: Id, t: Turn): nat
    requires id in s.schedules
  {
    if t.NoGasForFee? || t == Refused(OutOfGas) then NextGas(GasOf(s, id), MaxRetries(s.cfg, s.schedules[id])) else GasOf(s, id)
  }

  lemma TradeWaits(s: State, id: Id, in_: Inputs)
    requires id in s.schedules
    ensures var t := match ExecuteTrade(s, id, in_.trade) case Traded(_, a) => Sold(a) case NotTraded(e) => Refused(e);
            Waits(s, Trade(s, id, in_), id, Requested(s, id, t), in_.draws, RetriesAfter(s, id, t), GasAfter(s, id, t))
  {
    hide ExecuteTrade, Replanned, AfterTradeError, FreeBlock, Pow2;
    match ExecuteTrade(s, id, in_.trade)
    case Traded(m, amountIn) =>
      TradeFrame(s, id, in_.trade);
      ReplannedWaits(Recorded(m, id, amountIn), id, in_.replan, in_.draws);
    case NotTraded(e) => AfterTradeErrorWaits(s, id, e, in_.draws);
  }

  lemma ChargeAndTradeWaits(s: State, id: Id, in_: Inputs)
    requires id in s.schedules && !in_.bump
    ensures var t := TurnOf(s, id, in_);
            Waits(s, ChargeAndTrade(s, id, in_), id, Requested(s, id, t), in_.draws, RetriesAfter(s, id, t), GasAfter(s, id, t))
  {
    hide TakeFee, RetryOrTerminate, Trade, End, ExecuteTrade, FreeBlock, Pow2, IncrementGas;
    match TakeFee(s, id, in_.fee)
    case FeeError => EndWaits(s, s, id, Terminated(id), Requested(s, id, NoFee), in_.draws, RetriesAfter(s, id, NoFee), GasAfter(s, id, NoFee));
    case FeeOutOfGas =>
      GasStep(s, id);
      RetryOrTerminateWaits(IncrementGas(s, id), id, in_.draws);
    case FeePaid(s1) =>
      FeeFrame(s, id, in_.fee);
      if in_.unstable {
        RetryOrTerminateWaits(s1, id, in_.draws);
      } else {
        TradeWaits(s1, id, in_);
      }
  }

  /**
   * A schedule that survives an attempt waits for the first free block from the one its turn asks
   * for: the next block after a bump, a period ahead after a sale, and the backoff distance ahead
   * after any failure, an unstable price included. A sale clears the failure count, a failure
   * raises it by one, and extra gas grows by one step exactly if the turn ran out of gas.
   */
  lemma SurvivorWaits(s: State, id: Id, in_: Inputs)
    requires id in s.schedules
    ensures var t := TurnOf(Started(s, id), id, in_);
            Waits(s, Attempt(s, id, in_), id, Requested(s, id, t), in_.draws, RetriesAfter(s, id, t), GasAfter(s, id, t))
  {
    hide ChargeAndTrade, Plan, End, TakeFee, ExecuteTrade, FreeBlock, Pow2;
    var s0 := Started(s, id);
    if in_.bump {
      var requested := SatAdd(s.now, 1, U32_MAX);
      EndWaits(s0, s, id, Terminated(id), requested, in_.draws, RetriesOf(s, id), GasOf(s, id));
      if Plan(s0, id, Bumped, requested, in_.draws).Some? {
        PlanWaits(s0, id, Bumped, requested, in_.draws);
      }
    } else {
      ChargeAndTradeWaits(s0, id, in_);
    }
  }

  /**
   * An unstable price stops the trade: with the fee paid, nothing is sold or bought, and the
   * schedule, if it survives, has one failure more and waits for the backoff block.
   */
  lemma UnstablePriceStopsTrade(s: State, id: Id, in_: Inputs)
    requires id in s.schedules && s.schedules[id].order.assetOut != s.schedules[id].order.assetIn
    requires !in_.bump && in_.unstable && TakeFee(Started(s, id), id, in_.fee).FeePaid?
    ensures var s', k, n := Attempt(s, id, in_), Bought(s.schedules[id]), RetriesOf(s, id);
            && HistoryOf(s'.log, id).sold == HistoryOf(s.log, id).sold
            && BalanceAt(s', k).free == BalanceAt(s, k).free
            && (id in s'.schedules ==>
                  && RetriesOf(s', id) == n + 1 && id in s'.execBlock
                  && FreeBlock(s.idsPerBlock, s.cfg.maxPerBlock, s.now + 20 * Pow2(n), in_.draws, 0) == Some(s'.execBlock[id]))
  {
    hide Attempt, TakeFee, FreeBlock, Pow2, HistoryOf, At, ExecuteTrade;
    AttemptAdds(s, id, in_);
    SurvivorWaits(s, id, in_);
  }
}
