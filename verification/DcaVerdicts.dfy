/** When fees are charged and trades executed, and whether an attempt that ends a schedule completes or terminates it. */
module DcaVerdicts {
  import opened Common
  import opened Ledger
  import opened DcaModel
  import opened DcaInvariant
  import opened DcaSteps
  import opened DcaAttempt
  import opened DcaAttemptLaws
  import opened DcaTermination
  import opened DcaTheorems
  import opened DcaMoney
  import opened DcaEndings
  import opened DcaTurns

  /* ---- charging and trading ---- */

  /** The budget and its reserve can give up the amount; a rolling schedule gives up nothing. */
  predicate CanDraw(s: State, id: Id, amount: nat)
    requires id in s.schedules
  {
    s.schedules[id].Rolling() ||
    (id in s.remaining && amount <= s.remaining[id] && amount <= BalanceAt(s, s.schedules[id].SpentFrom()).dca)
  }

  /** What the owner can spend of the sold asset once the amount is drawn. */
  function SpendableOnceDrawn(s: State, id: Id, amount: nat): nat
    requires id in s.schedules && CanDraw(s, id, amount)
  {
    var b := BalanceAt(s, s.schedules[id].SpentFrom());
    var drawn := if s.schedules[id].Rolling() then 0 else amount;
    SatSub(b.free + drawn, SatSub(b.frozen, b.dca - drawn + b.other))
  }

  lemma DrawnThenSpent(s: State, id: Id, drawn: nat, amount: nat)
    requires id in s.schedules
    ensures Unallocate(s, id, drawn).Some? <==> CanDraw(s, id, drawn)
    ensures CanDraw(s, id, drawn) ==>
              var own := s.schedules[id].SpentFrom();
              Withdraw(At(Unallocate(s, id, drawn).value.ledger, own), amount).Some? <==> amount <= SpendableOnceDrawn(s, id, drawn)
  {
    if CanDraw(s, id, drawn) {
      UnallocateAt(s, id, drawn, s.schedules[id].SpentFrom());
    }
  }

  lemma MoveIff(ledger: map<Key, Balance>, from: Key, amount: nat, to: Option<Key>, credit: nat)
    ensures Move(ledger, from, amount, to, credit).Some? <==> Withdraw(At(ledger, from), amount).Some?
  {
    hide Withdraw, At;
  }

  /**
   * A fee is charged exactly if it has a price, the budget can give it up, the charge goes through
   * and the owner can spend it; it runs out of gas exactly if it got that far and the charge did.
   */
  lemma FeeIsChargedIff(s: State, id: Id, f: FeeInput)
    requires id in s.schedules
    ensures var drawable := f.budgeted.Some? && CanDraw(s, id, f.budgeted.value);
            && (TakeFee(s, id, f).FeePaid? <==>
                  drawable && f.charge.Charged? && PaidOf(f) <= SpendableOnceDrawn(s, id, f.budgeted.value))
            && (TakeFee(s, id, f).FeeOutOfGas? <==> drawable && f.charge.ChargeOutOfGas?)
  {
    hide Unallocate, Move, Withdraw, At, SatSub;
    if f.budgeted.Some? {
      var own, n := s.schedules[id].SpentFrom(), f.budgeted.value;
      var s0 := WithGas(s, id);
      DrawnThenSpent(s0, id, n, PaidOf(f));
      if Unallocate(s0, id, n).Some? {
        MoveIff(Unallocate(s0, id, n).value.ledger, own, PaidOf(f),
                if f.sufficientAsset then Some((s.cfg.treasury, own.1)) else None, PaidOf(f));
      }
    }
  }

  /**
   * A trade is executed exactly if its amount is known, the budget can give it up, nothing in the
   * trade fails and the owner can spend it; a sell order's amount is what is left up to its own,
   * a buy order's the quoted one. The error tells which of these failed first.
   */
  lemma TradeIsExecutedIff(s: State, id: Id, t: TradeInput)
    requires id in s.schedules && id in s.remaining
    ensures var order := s.schedules[id].order;
            var known := order.Sell? || t.buyQuote.Quoted?;
            var amount := if order.Sell? then Min(s.remaining[id], order.amountIn)
                          else if t.buyQuote.Quoted? then t.buyQuote.amount else 0;
            match ExecuteTrade(s, id, t)
            case Traded(_, a) =>
              known && CanDraw(s, id, amount) && t.failure.None? && amount <= SpendableOnceDrawn(s, id, amount) && a == amount
            case NotTraded(e) =>
              if !known then t.buyQuote.NoQuote? && e == t.buyQuote.error
              else if !CanDraw(s, id, amount) then e == OtherError
              else if t.failure.Some? then e == t.failure.value
              else e == FundsUnavailable && amount > SpendableOnceDrawn(s, id, amount)
  {
    hide Unallocate, Move, Withdraw, At, SatSub;
    var q := TradeAmount(s, id, t);
    if q.Quoted? {
      var sch, s0 := s.schedules[id], WithGas(s, id);
      DrawnThenSpent(s0, id, q.amount, q.amount);
      if Unallocate(s0, id, q.amount).Some? {
        MoveIff(Unallocate(s0, id, q.amount).value.ledger, sch.SpentFrom(), q.amount, Some(Bought(sch)), t.amountOut);
      }
    }
  }

  /* ---- completed or terminated ---- */

  /** What is left is not worth another round: less than twenty fees or the minimum, or than the next buy and its fee. */
  predicate Short(cfg: Config, sch: Schedule, left: nat, r: ReplanInput) {
    r.fee.Some? &&
    (left < Max(Min(20 * r.fee.value, U128_MAX), cfg.minimumTrade) ||
     (sch.order.Buy? && !sch.Rolling() && r.nextBuyAmountIn.Some? &&
      r.nextBuyAmountIn.value + r.fee.value <= U128_MAX && left < r.nextBuyAmountIn.value + r.fee.value))
  }

  /** The last word on a schedule: it completed, or it was terminated. */
  ghost predicate Ended(s': State, id: Id, completed: bool) {
    s'.log.Then? && s'.log.last == if completed then Completed(id) else Terminated(id)
  }

  lemma ReplannedVerdict(s: State, id: Id, r: ReplanInput, draws: seq<nat>)
    requires id in s.schedules && id in s.remaining
    ensures var s' := Replanned(s, id, r, draws);
            && (Short(s.cfg, s.schedules[id], s.remaining[id], r) ==> id !in s'.schedules && Ended(s', id, true))
            && (!Short(s.cfg, s.schedules[id], s.remaining[id], r) && id !in s'.schedules ==> Ended(s', id, false))
  {
    EndTerms(s, id, Completed(id));
    EndTerms(s, id, Terminated(id));
    hide FreeBlock, Refund;
  }

  lemma RetryVerdict(s: State, id: Id, draws: seq<nat>)
    requires id in s.schedules
    ensures id !in RetryOrTerminate(s, id, draws).schedules ==> Ended(RetryOrTerminate(s, id, draws), id, false)
  {
    hide FreeBlock, Pow2, Refund;
  }

  lemma AfterTradeErrorVerdict(s: State, id: Id, e: TradeError, draws: seq<nat>)
    requires id in s.schedules
    ensures id !in AfterTradeError(s, id, e, draws).schedules ==>
              Ended(AfterTradeError(s, id, e, draws), id, s.schedules[id].Rolling() && e == FundsUnavailable)
  {
    hide RetryOrTerminate, Refund, FreeBlock;
    RetryVerdict(if e.OutOfGas? then IncrementGas(s, id) else s, id, draws);
  }

  /** What a sale leaves of the budget, after its fee. */
  function LeftAfter(s: State, id: Id, in_: Inputs, amountIn: nat): int
    requires id in s.schedules && id in s.remaining && in_.fee.budgeted.Some?
  {
    s.remaining[id] - if s.schedules[id].Rolling() then 0 else in_.fee.budgeted.value + amountIn
  }

  lemma DrawnFields(s: State, id: Id, amount: nat)
    requires id in s.schedules && id in s.remaining && Unallocate(s, id, amount).Some?
    ensures var s' := Unallocate(s, id, amount).value;
            id in s'.remaining && s'.remaining[id] == s.remaining[id] - if s.schedules[id].Rolling() then 0 else amount
  {}

  lemma FeeDraws(s: State, id: Id, f: FeeInput)
    requires id in s.schedules && id in s.remaining && TakeFee(s, id, f).FeePaid? && f.budgeted.Some?
    ensures var s' := TakeFee(s, id, f).state;
            id in s'.remaining && s'.remaining[id] == s.remaining[id] - if s.schedules[id].Rolling() then 0 else f.budgeted.value
  {
    hide Unallocate, Move;
    DrawnFields(WithGas(s, id), id, f.budgeted.value);
  }

  lemma TradeDraws(s: State, id: Id, t: TradeInput)
    requires id in s.schedules && id in s.remaining && ExecuteTrade(s, id, t).Traded?
    ensures var r := ExecuteTrade(s, id, t);
            id in r.state.remaining &&
            r.state.remaining[id] == s.remaining[id] - if s.schedules[id].Rolling() then 0 else r.amountIn
  {
    hide Unallocate, Move;
    DrawnFields(WithGas(s, id), id, TradeAmount(s, id, t).amount);
  }

  lemma SaleLeaves(s: State, id: Id, in_: Inputs, amountIn: nat)
    requires id in s.schedules && id in s.remaining && TurnOf(s, id, in_) == Sold(amountIn)
    ensures in_.fee.budgeted.Some? && TakeFee(s, id, in_.fee).FeePaid? && id in TakeFee(s, id, in_.fee).state.schedules
    ensures var m := ExecuteTrade(TakeFee(s, id, in_.fee).state, id, in_.trade);
            m.Traded? && id in m.state.remaining && m.state.remaining[id] == LeftAfter(s, id, in_, amountIn)
  {
    hide TakeFee, ExecuteTrade;
    FeeFrame(s, id, in_.fee);
    FeeDraws(s, id, in_.fee);
    TradeDraws(TakeFee(s, id, in_.fee).state, id, in_.trade);
  }

  lemma ChargeAndTradeVerdict(s: State, id: Id, in_: Inputs)
    requires id in s.schedules && id in s.remaining && !in_.bump
    ensures var s', t, sch := ChargeAndTrade(s, id, in_), TurnOf(s, id, in_), s.schedules[id];
            && (t.Sold? ==> in_.fee.budgeted.Some? && 0 <= LeftAfter(s, id, in_, t.amountIn))
            && var completed := (t.Sold? && Short(s.cfg, sch, LeftAfter(s, id, in_, t.amountIn), in_.replan)) ||
                                (sch.Rolling() && t == Refused(FundsUnavailable));
               && (completed ==> id !in s'.schedules) && (id !in s'.schedules ==> Ended(s', id, completed))
  {
    hide TakeFee, RetryOrTerminate, ExecuteTrade, Replanned, AfterTradeError, Refund, Short, Ended;
    match TakeFee(s, id, in_.fee)
    case FeeError => TerminateVerdict(s, id);
    case FeeOutOfGas => RetryVerdict(IncrementGas(s, id), id, in_.draws);
    case FeePaid(s1) =>
      FeeFrame(s, id, in_.fee);
      if in_.unstable {
        RetryVerdict(s1, id, in_.draws);
      } else {
        match ExecuteTrade(s1, id, in_.trade)
        case NotTraded(e) =>
          AfterTradeErrorVerdict(s1, id, e, in_.draws);
          BrokeRollingCompletes(s1, id, in_.draws);
        case Traded(m, amountIn) =>
          SaleLeaves(s, id, in_, amountIn);
          TradeFrame(s1, id, in_.trade);
          ReplannedVerdict(Recorded(m, id, amountIn), id, in_.replan, in_.draws);
      }
  }

  lemma TerminateVerdict(s: State, id: Id)
    requires id in s.schedules
    ensures id !in Terminate(s, id).schedules && Ended(Terminate(s, id), id, false)
  {
    EndTerms(s, id, Terminated(id));
    hide Refund;
  }

  lemma BrokeRollingCompletes(s: State, id: Id, draws: seq<nat>)
    requires id in s.schedules
    ensures s.schedules[id].Rolling() ==> id !in AfterTradeError(s, id, FundsUnavailable, draws).schedules
  {
    EndTerms(s, id, Completed(id));
    hide End, RetryOrTerminate;
  }

  /**
   * How an attempt that removes a schedule closes it: completed exactly if it sold and what is left
   * of the budget is not worth another round, or if a rolling schedule's owner ran out of funds;
   * terminated otherwise. And in those two cases it does remove it.
   */
  lemma AttemptVerdict(s: State, id: Id, in_: Inputs)
    requires id in s.schedules && id in s.remaining
    ensures var s', t, sch := Attempt(s, id, in_), TurnOf(Started(s, id), id, in_), s.schedules[id];
            && (t.Sold? ==> in_.fee.budgeted.Some? && 0 <= LeftAfter(s, id, in_, t.amountIn))
            && var completed := (t.Sold? && Short(s.cfg, sch, LeftAfter(s, id, in_, t.amountIn), in_.replan)) ||
                                (sch.Rolling() && t == Refused(FundsUnavailable));
               && (completed ==> id !in s'.schedules) && (id !in s'.schedules ==> Ended(s', id, completed))
  {
    hide ChargeAndTrade, TakeFee, ExecuteTrade, Refund, Short, FreeBlock;
    var s0 := Started(s, id);
    if in_.bump {
      EndTerms(s0, id, Terminated(id));
    } else {
      ChargeAndTradeVerdict(s0, id, in_);
    }
  }
}
