/** What a single attempt does to the record, the gas, the locks and the termination measure. */
module DcaAttemptLaws {
  import opened Common
  import opened Ledger
  import opened DcaModel
  import opened DcaInvariant
  import opened DcaSteps
  import opened DcaAttempt

  /* ---- every attempt is on record once ---- */

  function Starts(log: Log): seq<Id> {
    match log
    case NoEvents => []
    case Then(earlier, ExecutionStarted(id, _)) => Starts(earlier) + [id]
    case Then(earlier, _) => Starts(earlier)
  }

  /** What charging and trading leave alone. */
  lemma FeeFields(s: State, id: Id, f: FeeInput)
    requires id in s.schedules && TakeFee(s, id, f).FeePaid?
    ensures var s' := TakeFee(s, id, f).state;
            s'.log == Then(s.log, FeeTaken(id, f.budgeted.value, PaidOf(f))) && s'.schedules == s.schedules && s'.extraGas == s.extraGas && s'.cfg == s.cfg
  {
    FeeIsKnown(s, id, f);
    UnallocateFrame(WithGas(s, id), id, f.budgeted.value);
    hide Unallocate, Move;
  }

  lemma TradeFields(s: State, id: Id, t: TradeInput)
    requires id in s.schedules && ExecuteTrade(s, id, t).Traded?
    ensures var s' := ExecuteTrade(s, id, t).state;
            s'.log == s.log && s'.schedules == s.schedules && s'.extraGas == s.extraGas && s'.cfg == s.cfg
  {
    UnallocateFrame(WithGas(s, id), id, TradeAmount(s, id, t).amount);
    hide Unallocate, Move;
  }

  lemma EndStarts(s: State, id: Id, e: Event)
    requires id in s.schedules && !e.ExecutionStarted?
    ensures Starts(End(s, id, e).log) == Starts(s.log)
  {
    assert Starts(Refund(s, id).log) == Starts(s.log);
  }

  lemma RetryOrTerminateStarts(s: State, id: Id, draws: seq<nat>)
    requires id in s.schedules
    ensures Starts(RetryOrTerminate(s, id, draws).log) == Starts(s.log)
  {
    var failed := Emit(s, TradeFailed(id));
    assert Starts(failed.log) == Starts(s.log);
    EndStarts(failed, id, Terminated(id));
  }

  lemma AfterTradeErrorStarts(s: State, id: Id, e: TradeError, draws: seq<nat>)
    requires id in s.schedules
    ensures Starts(AfterTradeError(s, id, e, draws).log) == Starts(s.log)
  {
    hide RetryOrTerminate, End;
    if s.schedules[id].Rolling() && e.FundsUnavailable? {
      EndStarts(s, id, Completed(id));
    } else {
      var s1 := if e.OutOfGas? then IncrementGas(s, id) else s;
      if Retriable(e) {
        RetryOrTerminateStarts(s1, id, draws);
      } else {
        EndStarts(Emit(s1, TradeFailed(id)), id, Terminated(id));
      }
    }
  }

  lemma ReplannedStarts(s: State, id: Id, r: ReplanInput, draws: seq<nat>)
    requires id in s.schedules
    ensures Starts(Replanned(s, id, r, draws).log) == Starts(s.log)
  {
    EndStarts(s, id, Completed(id));
    EndStarts(s, id, Terminated(id));
  }

  lemma RecordedStarts(m: State, id: Id, amountIn: nat)
    ensures Starts(Recorded(m, id, amountIn).log) == Starts(m.log)
  {}

  lemma TradeStarts(s: State, id: Id, in_: Inputs)
    requires id in s.schedules
    ensures Starts(Trade(s, id, in_).log) == Starts(s.log)
  {
    match ExecuteTrade(s, id, in_.trade)
    case Traded(m, amountIn) =>
      TradeFields(s, id, in_.trade);
      RecordedStarts(m, id, amountIn);
      ReplannedStarts(Recorded(m, id, amountIn), id, in_.replan, in_.draws);
    case NotTraded(e) => AfterTradeErrorStarts(s, id, e, in_.draws);
  }

  lemma ChargeAndTradeStarts(s: State, id: Id, in_: Inputs)
    requires id in s.schedules
    ensures Starts(ChargeAndTrade(s, id, in_).log) == Starts(s.log)
  {
    match TakeFee(s, id, in_.fee)
    case FeeError => EndStarts(s, id, Terminated(id));
    case FeeOutOfGas => RetryOrTerminateStarts(IncrementGas(s, id), id, in_.draws);
    case FeePaid(s1) =>
      FeeFields(s, id, in_.fee);
      assert Starts(s1.log) == Starts(s.log);
      if in_.unstable {
        RetryOrTerminateStarts(s1, id, in_.draws);
      } else {
        TradeStarts(s1, id, in_);
      }
  }

  /** An attempt records exactly one start, its own. */
  lemma AttemptStarts(s: State, id: Id, in_: Inputs)
    ensures Starts(Attempt(s, id, in_).log) == Starts(s.log) + [id]
  {
    var s0 := Emit(s, ExecutionStarted(id, s.now));
    assert Starts(s0.log) == Starts(s.log) + [id];
    if id in s.schedules {
      if in_.bump {
        EndStarts(s0, id, Terminated(id));
      } else {
        ChargeAndTradeStarts(s0, id, in_);
      }
    }
  }

  lemma {:induction false} AttemptsStarts(s: State, order: seq<Id>, ins: seq<Inputs>)
    requires |order| == |ins|
    ensures Starts(Attempts(s, order, ins).log) == Starts(s.log) + order
    decreases |order|
  {
    hide Attempt;
    if order != [] {
      var s1 := Attempt(s, order[0], ins[0]);
      AttemptStarts(s, order[0], ins[0]);
      AttemptsStarts(s1, order[1..], ins[1..]);
      assert Starts(s.log) + [order[0]] + order[1..] == Starts(s.log) + order;
    }
  }

  /* ---- extra gas ---- */

  /**
   * While a fee or a trade runs, the dispatcher holds exactly the schedule's extra gas: a success
   * clears it, and a failure returns with it still set, for the rollback to undo.
   */
  lemma GasIsLent(s: State, id: Id, f: FeeInput, amount: nat, t: TradeInput)
    requires id in s.schedules
    ensures var c := ChargeFee(s, id, f);
            c.state.transientGas == if c.status.Paid? then 0 else GasOf(s, id)
    ensures var d := Settle(WithGas(s, id), id, amount, t);
            d.state.transientGas == if d.status.Executed? then 0 else GasOf(s, id)
  {
    var s0 := WithGas(s, id);
    if f.budgeted.Some? && Unallocate(s0, id, f.budgeted.value).Some? {
      UnallocateFrame(s0, id, f.budgeted.value);
    }
    if Unallocate(s0, id, amount).Some? {
      UnallocateFrame(s0, id, amount);
    }
    hide Unallocate, Move;
  }

  lemma PlanGas(s: State, id: Id, reason: Reason, requested: Block, draws: seq<nat>)
    requires Plan(s, id, reason, requested, draws).Some?
    ensures Plan(s, id, reason, requested, draws).value.extraGas == s.extraGas
    ensures Plan(s, id, reason, requested, draws).value.schedules == s.schedules
  {}

  /** One increment: never down, never past the cap. */
  lemma IncrementBounds(s: State, id: Id)
    requires id in s.schedules && GasOf(s, id) <= MAX_EXTRA_GAS
    ensures GasOf(s, id) <= GasOf(IncrementGas(s, id), id) <= MAX_EXTRA_GAS
  {}

  lemma IncrementIgnoresLog(s: State, id: Id, e: Event)
    requires id in s.schedules
    ensures GasOf(IncrementGas(Emit(s, e), id), id) == GasOf(IncrementGas(s, id), id)
  {}

  lemma RetryOrTerminateGas(s: State, id: Id, draws: seq<nat>)
    requires id in s.schedules
    ensures var s' := RetryOrTerminate(s, id, draws);
            if id in s'.schedules then GasOf(s', id) == GasOf(s, id) else id !in s'.extraGas
  {}

  lemma ReplannedGas(s: State, id: Id, r: ReplanInput, draws: seq<nat>)
    requires id in s.schedules
    ensures var s' := Replanned(s, id, r, draws);
            if id in s'.schedules then GasOf(s', id) == GasOf(s, id) else id !in s'.extraGas
  {}

  /** The extra gas a schedule carries after an attempt, if it is still there. */
  ghost predicate GasGrows(s: State, s': State, id: Id)
    requires id in s.schedules
  {
    if id in s'.schedules
    then GasOf(s', id) == GasOf(s, id) || GasOf(s', id) == GasOf(IncrementGas(s, id), id)
    else id !in s'.extraGas
  }

  lemma EndGas(s: State, id: Id, e: Event)
    requires id in s.schedules
    ensures id !in End(s, id, e).schedules && id !in End(s, id, e).extraGas
  {}

  lemma AfterTradeErrorGas(s: State, id: Id, e: TradeError, draws: seq<nat>)
    requires id in s.schedules
    ensures GasGrows(s, AfterTradeError(s, id, e, draws), id)
  {
    hide RetryOrTerminate, End;
    EndGas(s, id, Completed(id));
    RetryOrTerminateGas(s, id, draws);
    RetryOrTerminateGas(IncrementGas(s, id), id, draws);
    EndGas(Emit(s, TradeFailed(id)), id, Terminated(id));
  }

  lemma TradeGas(s: State, id: Id, in_: Inputs)
    requires id in s.schedules
    ensures GasGrows(s, Trade(s, id, in_), id)
    ensures ExecuteTrade(s, id, in_.trade).Traded? && id in Trade(s, id, in_).schedules ==> GasOf(Trade(s, id, in_), id) == GasOf(s, id)
  {
    hide ExecuteTrade, Replanned, AfterTradeError;
    var r := ExecuteTrade(s, id, in_.trade);
    if r.Traded? {
      TradeFields(s, id, in_.trade);
      ReplannedGas(Recorded(r.state, id, r.amountIn), id, in_.replan, in_.draws);
    } else {
      AfterTradeErrorGas(s, id, r.error, in_.draws);
    }
  }

  lemma ChargeAndTradeGas(s: State, id: Id, in_: Inputs)
    requires id in s.schedules
    ensures GasGrows(s, ChargeAndTrade(s, id, in_), id)
  {
    hide TakeFee, RetryOrTerminate, Trade, End;
    match TakeFee(s, id, in_.fee)
    case FeeError => EndGas(s, id, Terminated(id));
    case FeeOutOfGas => RetryOrTerminateGas(IncrementGas(s, id), id, in_.draws);
    case FeePaid(s1) =>
      FeeFields(s, id, in_.fee);
      if in_.unstable {
        RetryOrTerminateGas(s1, id, in_.draws);
      } else {
        TradeGas(s1, id, in_);
      }
  }

  /**
   * Extra gas never shrinks while a schedule lives, grows by one increment at most per
   * attempt, and goes when the schedule goes.
   */
  lemma AttemptGas(s: State, id: Id, in_: Inputs)
    requires id in s.schedules && GasOf(s, id) <= MAX_EXTRA_GAS
    ensures GasGrows(s, Attempt(s, id, in_), id)
    ensures id in Attempt(s, id, in_).schedules ==> GasOf(s, id) <= GasOf(Attempt(s, id, in_), id) <= MAX_EXTRA_GAS
  {
    hide ChargeAndTrade, Plan, End, IncrementGas;
    var s0 := Emit(s, ExecutionStarted(id, s.now));
    IncrementBounds(s, id);
    if in_.bump {
      var requested := SatAdd(s0.now, 1, U32_MAX);
      EndGas(s0, id, Terminated(id));
      if Plan(s0, id, Bumped, requested, in_.draws).Some? {
        PlanGas(s0, id, Bumped, requested, in_.draws);
      }
    } else {
      ChargeAndTradeGas(s0, id, in_);
      IncrementIgnoresLog(s, id, ExecutionStarted(id, s.now));
    }
  }

  /* ---- locks ---- */

  /** Covered stays covered, for one balance. */
  ghost predicate CoverKept(s: State, s': State, k: Key) {
    Covered(BalanceAt(s, k)) ==> Covered(BalanceAt(s', k))
  }

  lemma UnallocateCover(s: State, id: Id, amount: nat, k: Key)
    requires id in s.schedules && Unallocate(s, id, amount).Some?
    ensures CoverKept(s, Unallocate(s, id, amount).value, k)
  {}

  lemma SetCover(ledger: map<Key, Balance>, at: Key, b: Balance, k: Key)
    requires Covered(At(ledger, at)) ==> Covered(b)
    ensures Covered(At(ledger, k)) ==> Covered(At(ledger[at := b], k))
  {}

  lemma DebitCover(ledger: map<Key, Balance>, from: Key, amount: nat, k: Key)
    requires Withdraw(At(ledger, from), amount).Some?
    ensures Covered(At(ledger, k)) ==> Covered(At(ledger[from := Withdraw(At(ledger, from), amount).value], k))
  {
    if Covered(At(ledger, from)) {
      CoverIsKept(At(ledger, from), amount);
    }
    SetCover(ledger, from, Withdraw(At(ledger, from), amount).value, k);
  }

  lemma CreditCover(ledger: map<Key, Balance>, to: Key, credit: nat, k: Key)
    ensures Covered(At(ledger, k)) ==> Covered(At(ledger[to := At(ledger, to).(free := At(ledger, to).free + credit)], k))
  {}

  lemma MoveCover(ledger: map<Key, Balance>, from: Key, amount: nat, to: Option<Key>, credit: nat, k: Key)
    requires Move(ledger, from, amount, to, credit).Some?
    ensures Covered(At(ledger, k)) ==> Covered(At(Move(ledger, from, amount, to, credit).value, k))
  {
    hide Withdraw, Covered;
    DebitCover(ledger, from, amount, k);
    if to.Some? {
      CreditCover(ledger[from := Withdraw(At(ledger, from), amount).value], to.value, credit, k);
    }
  }

  lemma EndCover(s: State, id: Id, e: Event, k: Key)
    requires id in s.schedules
    ensures CoverKept(s, End(s, id, e), k)
  {}

  lemma RetryOrTerminateCover(s: State, id: Id, draws: seq<nat>, k: Key)
    requires id in s.schedules
    ensures CoverKept(s, RetryOrTerminate(s, id, draws), k)
  {
    EndCover(Emit(s, TradeFailed(id)), id, Terminated(id), k);
  }

  lemma SettleCover(s: State, id: Id, amount: nat, t: TradeInput, k: Key)
    requires id in s.schedules && Settle(s, id, amount, t).status.Executed?
    ensures CoverKept(s, Settle(s, id, amount, t).state, k)
  {
    var s1 := Unallocate(s, id, amount).value;
    var sch := s.schedules[id];
    UnallocateCover(s, id, amount, k);
    MoveCover(s1.ledger, sch.SpentFrom(), amount, Some((sch.owner, sch.order.assetOut)), t.amountOut, k);
  }

  lemma TakeFeeCover(s: State, id: Id, f: FeeInput, k: Key)
    requires id in s.schedules && TakeFee(s, id, f).FeePaid?
    ensures CoverKept(s, TakeFee(s, id, f).state, k)
  {
    var from := s.schedules[id].SpentFrom();
    var s0 := WithGas(s, id);
    var s1 := Unallocate(s0, id, f.budgeted.value).value;
    UnallocateCover(s0, id, f.budgeted.value, k);
    MoveCover(s1.ledger, from, PaidOf(f), if f.sufficientAsset then Some((s.cfg.treasury, from.1)) else None, PaidOf(f), k);
  }

  lemma ReplannedCover(s: State, id: Id, r: ReplanInput, draws: seq<nat>, k: Key)
    requires id in s.schedules
    ensures CoverKept(s, Replanned(s, id, r, draws), k)
  {
    EndCover(s, id, Completed(id), k);
    EndCover(s, id, Terminated(id), k);
  }

  lemma AfterTradeErrorCover(s: State, id: Id, e: TradeError, draws: seq<nat>, k: Key)
    requires id in s.schedules
    ensures CoverKept(s, AfterTradeError(s, id, e, draws), k)
  {
    hide End, RetryOrTerminate;
    if s.schedules[id].Rolling() && e.FundsUnavailable? {
      EndCover(s, id, Completed(id), k);
    } else if e.OutOfGas? {
      RetryOrTerminateCover(IncrementGas(s, id), id, draws, k);
    } else if Retriable(e) {
      RetryOrTerminateCover(s, id, draws, k);
    } else {
      EndCover(Emit(s, TradeFailed(id)), id, Terminated(id), k);
    }
  }

  lemma TradeCover(s: State, id: Id, in_: Inputs, k: Key)
    requires id in s.schedules
    ensures CoverKept(s, Trade(s, id, in_), k)
  {
    hide Replanned, AfterTradeError, Settle;
    match ExecuteTrade(s, id, in_.trade)
    case Traded(m, amountIn) =>
      TradeFields(s, id, in_.trade);
      SettleCover(WithGas(s, id), id, TradeAmount(s, id, in_.trade).amount, in_.trade, k);
      ReplannedCover(Recorded(m, id, amountIn), id, in_.replan, in_.draws, k);
    case NotTraded(e) => AfterTradeErrorCover(s, id, e, in_.draws, k);
  }

  lemma ChargeAndTradeCover(s: State, id: Id, in_: Inputs, k: Key)
    requires id in s.schedules
    ensures CoverKept(s, ChargeAndTrade(s, id, in_), k)
  {
    match TakeFee(s, id, in_.fee)
    case FeeError => EndCover(s, id, Terminated(id), k);
    case FeeOutOfGas => RetryOrTerminateCover(IncrementGas(s, id), id, in_.draws, k);
    case FeePaid(s1) =>
      TakeFeeCover(s, id, in_.fee, k);
      if in_.unstable {
        RetryOrTerminateCover(s1, id, in_.draws, k);
      } else {
        TradeCover(s1, id, in_, k);
      }
  }

  /** No attempt takes an account's total below its lock, on any asset of any account. */
  lemma AttemptCover(s: State, id: Id, in_: Inputs, k: Key)
    requires id in s.schedules
    ensures CoverKept(s, Attempt(s, id, in_), k)
  {
    var s0 := Emit(s, ExecutionStarted(id, s.now));
    if in_.bump {
      EndCover(s0, id, Terminated(id), k);
    } else {
      ChargeAndTradeCover(s0, id, in_, k);
    }
  }
}
