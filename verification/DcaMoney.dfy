/** What an execution attempt takes out of its owner's account, and where it goes. */
module DcaMoney {
  import opened Common
  import opened Ledger
  import opened DcaModel
  import opened DcaInvariant
  import opened DcaSteps
  import opened DcaAttempt
  import opened DcaAttemptLaws

  /* ---- single steps ---- */

  /** A balance after so much was added to its free and DCA-reserved parts. */
  predicate Changed(b: Balance, b': Balance, free: int, dca: int) {
    b'.free == b.free + free && b'.dca == b.dca + dca && b'.other == b.other && b'.frozen == b.frozen
  }

  lemma SetAt(ledger: map<Key, Balance>, at: Key, b: Balance, k: Key)
    ensures At(ledger[at := b], k) == if k == at then b else At(ledger, k)
  {}

  /** What a move does at its two ends; elsewhere it does nothing. */
  lemma MoveAt(ledger: map<Key, Balance>, from: Key, amount: nat, to: Option<Key>, credit: nat, k: Key)
    requires Move(ledger, from, amount, to, credit).Some? && to != Some(from)
    ensures Changed(At(ledger, k), At(Move(ledger, from, amount, to, credit).value, k),
                    if k == from then 0 - amount else if to == Some(k) then credit else 0, 0)
  {
    hide At;
    var l := ledger[from := Withdraw(At(ledger, from), amount).value];
    SetAt(ledger, from, Withdraw(At(ledger, from), amount).value, k);
    if to.Some? {
      SetAt(ledger, from, Withdraw(At(ledger, from), amount).value, to.value);
      SetAt(l, to.value, At(l, to.value).(free := At(l, to.value).free + credit), k);
    }
  }

  lemma UnallocateAt(s: State, id: Id, amount: nat, k: Key)
    requires id in s.schedules && Unallocate(s, id, amount).Some?
    ensures var n := if k == s.schedules[id].SpentFrom() && !s.schedules[id].Rolling() then amount else 0;
            Changed(BalanceAt(s, k), BalanceAt(Unallocate(s, id, amount).value, k), n, 0 - n)
  {}

  /** The owner is not the fee receiver, and the order does not buy what it sells. */
  predicate Apart(cfg: Config, sch: Schedule) {
    sch.owner != cfg.treasury && sch.order.assetOut != sch.order.assetIn
  }

  /** What a paid fee adds to the balances at `k`. */
  lemma FeeAt(s: State, id: Id, f: FeeInput, k: Key)
    requires id in s.schedules && Apart(s.cfg, s.schedules[id]) && TakeFee(s, id, f).FeePaid? && f.budgeted.Some?
    ensures var own := s.schedules[id].SpentFrom();
            var drawn := if s.schedules[id].Rolling() then 0 else f.budgeted.value;
            Changed(BalanceAt(s, k), BalanceAt(TakeFee(s, id, f).state, k),
                    if k == own then drawn - PaidOf(f)
                    else if k == (s.cfg.treasury, own.1) && f.sufficientAsset then PaidOf(f) else 0,
                    if k == own then 0 - drawn else 0)
  {
    hide Unallocate, Move;
    var s0, own := WithGas(s, id), s.schedules[id].SpentFrom();
    UnallocateAt(s0, id, f.budgeted.value, k);
    var l := Unallocate(s0, id, f.budgeted.value).value.ledger;
    var to := if f.sufficientAsset then Some((s.cfg.treasury, own.1)) else None;
    MoveAt(l, own, PaidOf(f), to, PaidOf(f), k);
  }

  /**
   * A charged fee: what is paid never exceeds what is drawn from the budget and equals it exactly
   * when no swap took less; a fixed budget's reserve falls by what is drawn, the surplus stays in
   * the owner's free balance, and a directly paid fee arrives at the treasury.
   */
  lemma FeeLeavesOwner(s: State, id: Id, f: FeeInput)
    requires id in s.schedules && Apart(s.cfg, s.schedules[id]) && TakeFee(s, id, f).FeePaid?
    ensures f.budgeted.Some?
    ensures var drawn, paid := f.budgeted.value, PaidOf(f);
            var s', k := TakeFee(s, id, f).state, s.schedules[id].SpentFrom();
            var b, b', t := BalanceAt(s, k), BalanceAt(s', k), (s.cfg.treasury, k.1);
            && s'.log == Then(s.log, FeeTaken(id, drawn, paid))
            && paid <= drawn && (paid == drawn <==> f.sufficientAsset || f.swapped >= drawn)
            && Total(b') == Total(b) - paid
            && (!s.schedules[id].Rolling() ==> b'.free == b.free + (drawn - paid) && b'.dca == b.dca - drawn)
            && BalanceAt(s', t).free == BalanceAt(s, t).free + if f.sufficientAsset then paid else 0
  {
    hide TakeFee, At;
    FeeIsKnown(s, id, f);
    FeeFields(s, id, f);
    FeeAt(s, id, f, s.schedules[id].SpentFrom());
    FeeAt(s, id, f, (s.cfg.treasury, s.schedules[id].order.assetIn));
  }

  /** What an executed trade adds to the balances at `k`. */
  lemma TradeAt(s: State, id: Id, t: TradeInput, k: Key)
    requires id in s.schedules && Apart(s.cfg, s.schedules[id]) && ExecuteTrade(s, id, t).Traded?
    ensures var r, sch := ExecuteTrade(s, id, t), s.schedules[id];
            Changed(BalanceAt(s, k), BalanceAt(r.state, k),
                    if k == sch.SpentFrom() then if sch.Rolling() then 0 - r.amountIn else 0
                    else if k == (sch.owner, sch.order.assetOut) then t.amountOut else 0,
                    if k == sch.SpentFrom() && !sch.Rolling() then 0 - r.amountIn else 0)
  {
    hide Unallocate, Move;
    var s0, own := WithGas(s, id), s.schedules[id].SpentFrom();
    var amount := TradeAmount(s, id, t).amount;
    UnallocateAt(s0, id, amount, k);
    var l := Unallocate(s0, id, amount).value.ledger;
    MoveAt(l, own, amount, Some((s.schedules[id].owner, s.schedules[id].order.assetOut)), t.amountOut, k);
  }

  /* ---- a whole attempt ---- */

  /** What the owner has in the sold asset, plus what the record says was sold and paid. */
  ghost function Worth(s: State, id: Id, k: Key): nat {
    Total(BalanceAt(s, k)) + HistoryOf(s.log, id).sold + HistoryOf(s.log, id).paid
  }

  /** The accounts an attempt of the schedule may touch beside the sold asset's. */
  predicate Touches(cfg: Config, sch: Schedule, k: Key) {
    k == sch.SpentFrom() || k == (sch.owner, sch.order.assetOut) || k == (cfg.treasury, sch.order.assetIn)
  }

  /** The record accounts for all that left the sold asset's account, and no other account changed. */
  ghost predicate Accounts(s: State, s': State, id: Id, sch: Schedule, k: Key) {
    && (k == sch.SpentFrom() ==> Worth(s', id, k) == Worth(s, id, k))
    && (!Touches(s.cfg, sch, k) ==> BalanceAt(s', k) == BalanceAt(s, k))
    && s'.cfg == s.cfg
  }

  lemma AccountsTrans(s: State, m: State, s': State, id: Id, sch: Schedule, k: Key)
    requires Accounts(s, m, id, sch, k) && Accounts(m, s', id, sch, k)
    ensures Accounts(s, s', id, sch, k)
  {}

  /** Events that record neither a fee nor a trade. */
  predicate Quiet(e: Event) {
    !e.FeeTaken? && !e.TradeExecuted? && !e.Scheduled?
  }

  lemma QuietAccounts(s: State, s': State, id: Id, sch: Schedule, k: Key, e: Event)
    requires Quiet(e) && s'.log == Then(s.log, e) && s'.ledger == s.ledger && s'.cfg == s.cfg
    ensures Accounts(s, s', id, sch, k)
  {}

  lemma EndAccounts(s: State, id: Id, e: Event, k: Key)
    requires id in s.schedules && Quiet(e)
    ensures Accounts(s, End(s, id, e), id, s.schedules[id], k)
  {
    var sch := s.schedules[id];
    RefundAccounts(s, id, k);
    var m := Refund(s, id);
    QuietAccounts(m, End(s, id, e), id, sch, k, e);
    hide Refund, End;
    AccountsTrans(s, m, End(s, id, e), id, sch, k);
  }

  lemma RefundAccounts(s: State, id: Id, k: Key)
    requires id in s.schedules
    ensures Accounts(s, Refund(s, id), id, s.schedules[id], k)
  {
    if id in s.remaining {
      hide Unreserve, At, HistoryOf, Min;
      var own := s.schedules[id].SpentFrom();
      UnreserveTotal(BalanceAt(s, own), s.remaining[id]);
      SetAt(s.ledger, own, Unreserve(BalanceAt(s, own), s.remaining[id]), k);
      RecordAdds(s.log, id, Unreserved(id, Min(s.remaining[id], BalanceAt(s, own).dca)));
    }
  }

  lemma UnreserveTotal(b: Balance, amount: nat)
    ensures Total(Unreserve(b, amount)) == Total(b)
  {}

  lemma PlanAccounts(s: State, id: Id, reason: Reason, requested: Block, draws: seq<nat>, sch: Schedule, k: Key)
    requires Plan(s, id, reason, requested, draws).Some?
    ensures Accounts(s, Plan(s, id, reason, requested, draws).value, id, sch, k)
  {
    hide FreeBlock, Accounts;
    var b := FreeBlock(s.idsPerBlock, s.cfg.maxPerBlock, requested, draws, 0).value;
    QuietAccounts(s, PlacedAt(s, id, reason, requested, b), id, sch, k, ExecutionPlanned(id, reason, s.now, requested, b));
  }

  lemma RetryAccounts(s: State, id: Id, draws: seq<nat>, k: Key)
    requires id in s.schedules && Retry(s, id, draws).Some?
    ensures Accounts(s, Retry(s, id, draws).value, id, s.schedules[id], k)
  {
    hide Plan, Pow2;
    var n := RetriesOf(s, id);
    var counted := s.(retries := s.retries[id := n + 1]);
    assert Accounts(s, counted, id, s.schedules[id], k);
    hide Accounts;
    PlanAccounts(counted, id, Retried, RetryBlock(s.now, n).value, draws, s.schedules[id], k);
    AccountsTrans(s, counted, Retry(s, id, draws).value, id, s.schedules[id], k);
  }

  lemma RetryOrTerminateAccounts(s: State, id: Id, draws: seq<nat>, k: Key)
    requires id in s.schedules
    ensures Accounts(s, RetryOrTerminate(s, id, draws), id, s.schedules[id], k)
  {
    var sch, failed := s.schedules[id], Emit(s, TradeFailed(id));
    QuietAccounts(s, failed, id, sch, k, TradeFailed(id));
    hide Retry, End, Accounts;
    if Retry(failed, id, draws).Some? {
      RetryAccounts(failed, id, draws, k);
    } else {
      EndAccounts(failed, id, Terminated(id), k);
    }
    AccountsTrans(s, failed, RetryOrTerminate(s, id, draws), id, sch, k);
  }

  lemma ReplannedAccounts(s: State, id: Id, r: ReplanInput, draws: seq<nat>, k: Key)
    requires id in s.schedules
    ensures Accounts(s, Replanned(s, id, r, draws), id, s.schedules[id], k)
  {
    hide Plan, End, Accounts;
    EndAccounts(s, id, Completed(id), k);
    EndAccounts(s, id, Terminated(id), k);
    var d := Decide(s, id, r);
    hide Decide;
    if d.Again? && Plan(s, id, NextPeriod, d.block, draws).Some? {
      PlanAccounts(s, id, NextPeriod, d.block, draws, s.schedules[id], k);
    }
  }

  lemma GasAccounts(s: State, id: Id, sch: Schedule, k: Key)
    requires id in s.schedules
    ensures Accounts(s, IncrementGas(s, id), id, sch, k) && IncrementGas(s, id).schedules == s.schedules
  {}

  lemma AfterTradeErrorAccounts(s: State, id: Id, e: TradeError, draws: seq<nat>, k: Key)
    requires id in s.schedules
    ensures Accounts(s, AfterTradeError(s, id, e, draws), id, s.schedules[id], k)
  {
    hide RetryOrTerminate, End, Accounts, IncrementGas;
    var sch := s.schedules[id];
    if sch.Rolling() && e.FundsUnavailable? {
      EndAccounts(s, id, Completed(id), k);
    } else {
      GasAccounts(s, id, sch, k);
      var s1 := if e.OutOfGas? then IncrementGas(s, id) else s;
      SameAccounts(s, id, sch, k);
      if Retriable(e) {
        RetryOrTerminateAccounts(s1, id, draws, k);
      } else {
        var failed := Emit(s1, TradeFailed(id));
        QuietAccounts(s1, failed, id, sch, k, TradeFailed(id));
        EndAccounts(failed, id, Terminated(id), k);
        AccountsTrans(s1, failed, End(failed, id, Terminated(id)), id, sch, k);
      }
      AccountsTrans(s, s1, AfterTradeError(s, id, e, draws), id, sch, k);
    }
  }

  lemma SameAccounts(s: State, id: Id, sch: Schedule, k: Key)
    ensures Accounts(s, s, id, sch, k)
  {}

  lemma TradedAccounts(s: State, id: Id, t: TradeInput, k: Key)
    requires id in s.schedules && Apart(s.cfg, s.schedules[id]) && ExecuteTrade(s, id, t).Traded?
    ensures var r := ExecuteTrade(s, id, t);
            Accounts(s, Recorded(r.state, id, r.amountIn), id, s.schedules[id], k)
  {
    hide ExecuteTrade, HistoryOf, At;
    var r := ExecuteTrade(s, id, t);
    TradeAt(s, id, t, k);
    TradeFields(s, id, t);
    RecordAdds(s.log, id, TradeExecuted(id, r.amountIn));
  }

  lemma RecordAdds(log: Log, id: Id, e: Event)
    requires Concerns(e, id)
    ensures HistoryOf(Then(log, e), id) == Replay(HistoryOf(log, id), id, e)
  {}

  lemma TradeAccounts(s: State, id: Id, in_: Inputs, k: Key)
    requires id in s.schedules && Apart(s.cfg, s.schedules[id])
    ensures Accounts(s, Trade(s, id, in_), id, s.schedules[id], k)
  {
    hide ExecuteTrade, Replanned, AfterTradeError, Accounts;
    match ExecuteTrade(s, id, in_.trade)
    case Traded(m, amountIn) =>
      TradeFields(s, id, in_.trade);
      TradedAccounts(s, id, in_.trade, k);
      ReplannedAccounts(Recorded(m, id, amountIn), id, in_.replan, in_.draws, k);
      AccountsTrans(s, Recorded(m, id, amountIn), Trade(s, id, in_), id, s.schedules[id], k);
    case NotTraded(e) => AfterTradeErrorAccounts(s, id, e, in_.draws, k);
  }

  lemma ChargedAccounts(s: State, id: Id, f: FeeInput, k: Key)
    requires id in s.schedules && Apart(s.cfg, s.schedules[id]) && TakeFee(s, id, f).FeePaid?
    ensures Accounts(s, TakeFee(s, id, f).state, id, s.schedules[id], k)
  {
    hide TakeFee, HistoryOf, At;
    FeeIsKnown(s, id, f);
    FeeAt(s, id, f, k);
    FeeFields(s, id, f);
    RecordAdds(s.log, id, FeeTaken(id, f.budgeted.value, PaidOf(f)));
  }

  lemma ChargeAndTradeAccounts(s: State, id: Id, in_: Inputs, k: Key)
    requires id in s.schedules && Apart(s.cfg, s.schedules[id])
    ensures Accounts(s, ChargeAndTrade(s, id, in_), id, s.schedules[id], k)
  {
    hide TakeFee, RetryOrTerminate, Trade, End, Accounts, IncrementGas;
    var sch := s.schedules[id];
    match TakeFee(s, id, in_.fee)
    case FeeError => EndAccounts(s, id, Terminated(id), k);
    case FeeOutOfGas =>
      GasAccounts(s, id, sch, k);
      RetryOrTerminateAccounts(IncrementGas(s, id), id, in_.draws, k);
      AccountsTrans(s, IncrementGas(s, id), ChargeAndTrade(s, id, in_), id, sch, k);
    case FeePaid(s1) =>
      FeeFields(s, id, in_.fee);
      ChargedAccounts(s, id, in_.fee, k);
      if in_.unstable {
        RetryOrTerminateAccounts(s1, id, in_.draws, k);
      } else {
        TradeAccounts(s1, id, in_, k);
      }
      AccountsTrans(s, s1, ChargeAndTrade(s, id, in_), id, sch, k);
  }

  /**
   * The ledger law of an attempt: the owner's total in the sold asset falls by exactly what the
   * record adds as sold and paid, whatever the attempt meets; beside it only the bought asset's
   * account and the fee receiver's may change.
   */
  lemma AttemptAccounts(s: State, id: Id, in_: Inputs, k: Key)
    requires id in s.schedules && Apart(s.cfg, s.schedules[id])
    ensures var s', h := Attempt(s, id, in_), HistoryOf(s.log, id);
            var h' := HistoryOf(s'.log, id);
            && (k == s.schedules[id].SpentFrom() ==>
                  Total(BalanceAt(s', k)) == Total(BalanceAt(s, k)) - (h'.sold - h.sold) - (h'.paid - h.paid))
            && (!Touches(s.cfg, s.schedules[id], k) ==> BalanceAt(s', k) == BalanceAt(s, k))
  {
    hide ChargeAndTrade, Plan, End;
    var sch, e := s.schedules[id], ExecutionStarted(id, s.now);
    var s0, s' := Emit(s, e), Attempt(s, id, in_);
    QuietAccounts(s, s0, id, sch, k, e);
    if in_.bump {
      var requested := SatAdd(s.now, 1, U32_MAX);
      EndAccounts(s0, id, Terminated(id), k);
      if Plan(s0, id, Bumped, requested, in_.draws).Some? {
        PlanAccounts(s0, id, Bumped, requested, in_.draws, sch, k);
      }
    } else {
      ChargeAndTradeAccounts(s0, id, in_, k);
    }
    AccountsTrans(s, s0, s', id, sch, k);
  }
}
