/**
 * The DCA pallet as it runs: one field per storage item, updated in place. Every method is
 * proved to do what the corresponding function on states says.
 */
module DcaPallet {
  import opened Common
  import opened Ledger
  import opened DcaModel
  import opened DcaSteps
  import opened DcaAttemptLaws

  datatype CallStatus = Accepted | Refused(error: Error)

  /** What a call must have done, given the specified outcome. */
  ghost predicate Agrees(before: State, after: State, status: CallStatus, spec: Outcome) {
    match spec
    case Ok(state) => status == Accepted && after == state
    case Err(error) => status == Refused(error) && after == before
  }

  class Pallet {
    const cfg: Config
    var now: Block
    var nextId: Id
    var schedules: map<Id, Schedule>
    var ownership: set<(Account, Id)>
    var remaining: map<Id, nat>
    var retries: map<Id, nat>
    var execBlock: map<Id, Block>
    var idsPerBlock: map<Block, seq<Id>>
    var extraGas: map<Id, nat>
    var transientGas: nat
    var ledger: map<Key, Balance>
    var log: Log

    function View(): State
      reads this
    {
      State(cfg, now, nextId, schedules, ownership, remaining, retries, execBlock, idsPerBlock,
            extraGas, transientGas, ledger, log)
    }

    /** Roll back to a snapshot of storage. */
    method Restore(s: State)
      requires s.cfg == cfg
      modifies this
      ensures View() == s
    {
      now, nextId, schedules, ownership := s.now, s.nextId, s.schedules, s.ownership;
      remaining, retries, execBlock, idsPerBlock := s.remaining, s.retries, s.execBlock, s.idsPerBlock;
      extraGas, transientGas, ledger, log := s.extraGas, s.transientGas, s.ledger, s.log;
    }

    method Deposit(e: Event)
      modifies `log
      ensures View() == Emit(old(View()), e)
    {
      log := Then(log, e);
    }

    /* ---- planning ---- */

    method FindNextFreeBlock(block: Block, draws: seq<nat>) returns (r: Option<Block>)
      ensures r == FreeBlock(idsPerBlock, cfg.maxPerBlock, block, draws, 0)
    {
      var next := block;
      for i := 0 to RESCHEDULING_ATTEMPTS + 1
        invariant FreeBlock(idsPerBlock, cfg.maxPerBlock, next, draws, i) ==
                  FreeBlock(idsPerBlock, cfg.maxPerBlock, block, draws, 0)
      {
        if |IdsAt(idsPerBlock, next)| < cfg.maxPerBlock {
          return Some(next);
        }
        next := SatAdd(next, Delay(draws, i), U32_MAX);
      }
      return None;
    }

    method PlanScheduleForBlock(id: Id, reason: Reason, requested: Block, draws: seq<nat>) returns (ok: bool)
      modifies this
      ensures ok == Plan(old(View()), id, reason, requested, draws).Some?
      ensures View() == if ok then Plan(old(View()), id, reason, requested, draws).value else old(View())
    {
      hide FreeBlock;
      if requested <= now {
        return false;
      }
      var free := FindNextFreeBlock(requested, draws);
      if free.None? {
        return false;
      }
      var b := free.value;
      idsPerBlock := idsPerBlock[b := IdsAt(idsPerBlock, b) + [id]];
      execBlock := execBlock[id := b];
      Deposit(ExecutionPlanned(id, reason, now, requested, b));
      return true;
    }

    /** A retry that cannot be planned leaves only its own counter behind. */
    method RetrySchedule(id: Id, draws: seq<nat>) returns (ok: bool)
      requires id in schedules
      modifies this
      ensures ok == Retry(old(View()), id, draws).Some?
      ensures ok ==> View() == Retry(old(View()), id, draws).value
      ensures !ok ==> View() == old(View()).(retries := retries) && retries - {id} == old(retries) - {id}
    {
      hide FreeBlock, Pow2, PlacedAt;
      var k := RetriesOf(View(), id);
      if k >= MaxRetries(cfg, schedules[id]) {
        return false;
      }
      var at := RetryBlock(now, k);
      if at.None? {
        return false;
      }
      retries := retries[id := k + 1];
      ok := PlanScheduleForBlock(id, Retried, at.value, draws);
    }

    /* ---- budget ---- */

    method UnallocateAmount(id: Id, amount: nat) returns (ok: bool)
      requires id in schedules
      modifies this
      ensures ok == Unallocate(old(View()), id, amount).Some?
      ensures View() == if ok then Unallocate(old(View()), id, amount).value else old(View())
    {
      hide Unreserve;
      var sch := schedules[id];
      if sch.Rolling() {
        return true;
      }
      var k := sch.SpentFrom();
      if id !in remaining || remaining[id] < amount || At(ledger, k).dca < amount {
        return false;
      }
      remaining := remaining[id := remaining[id] - amount];
      ledger := ledger[k := Unreserve(At(ledger, k), amount)];
      return true;
    }

    method MoveFunds(from: Key, amount: nat, to: Option<Key>, credit: nat) returns (ok: bool)
      modifies `ledger
      ensures ok == Move(old(ledger), from, amount, to, credit).Some?
      ensures ledger == if ok then Move(old(ledger), from, amount, to, credit).value else old(ledger)
    {
      hide Withdraw;
      var paid := Withdraw(At(ledger, from), amount);
      if paid.None? {
        return false;
      }
      ledger := ledger[from := paid.value];
      if to.Some? {
        ledger := ledger[to.value := At(ledger, to.value).(free := At(ledger, to.value).free + credit)];
      }
      return true;
    }

    /** The body of the charge, with the schedule's extra gas lent to the dispatcher. */
    method Charge(id: Id, f: FeeInput) returns (r: FeeStatus)
      requires id in schedules
      modifies this
      ensures Charging(View(), r) == ChargeFee(old(View()), id, f)
    {
      hide Unallocate, Move;
      transientGas := GasOf(View(), id);
      if f.budgeted.None? {
        return Unpaid;
      }
      var fee := f.budgeted.value;
      var k := schedules[id].SpentFrom();
      ghost var before := View();
      var ok := UnallocateAmount(id, fee);
      if !ok {
        return Unpaid;
      }
      UnallocateFrame(before, id, fee);
      if f.charge.ChargeOutOfGas? {
        return OutOfGasForFee;
      }
      if f.charge.ChargeFailed? {
        return Unpaid;
      }
      var paid := fee;
      if f.sufficientAsset {
        ok := MoveFunds(k, paid, Some((cfg.treasury, k.1)), paid);
      } else {
        paid := Min(f.swapped, fee);
        ok := MoveFunds(k, paid, None, paid);
      }
      if !ok {
        return Unpaid;
      }
      transientGas := 0;
      Deposit(FeeTaken(id, fee, paid));
      return Paid;
    }

    /** Charging is transactional: unless the fee is paid, nothing happened. */
    method TakeTransactionFee(id: Id, f: FeeInput) returns (r: FeeStatus)
      requires id in schedules
      modifies this
      ensures match TakeFee(old(View()), id, f)
              case FeePaid(s) => r == Paid && View() == s
              case FeeOutOfGas => r == OutOfGasForFee && View() == old(View())
              case FeeError => r == Unpaid && View() == old(View())
    {
      hide ChargeFee;
      var snapshot := View();
      r := Charge(id, f);
      if !r.Paid? {
        Restore(snapshot);
      }
    }

    method SettleTrade(id: Id, amount: nat, t: TradeInput) returns (r: TradeStatus)
      requires id in schedules
      modifies this
      ensures Trading(View(), r) == Settle(old(View()), id, amount, t)
    {
      hide Unallocate, Move;
      var sch := schedules[id];
      ghost var before := View();
      var ok := UnallocateAmount(id, amount);
      if !ok {
        return Failed(OtherError);
      }
      UnallocateFrame(before, id, amount);
      if t.failure.Some? {
        return Failed(t.failure.value);
      }
      ok := MoveFunds(sch.SpentFrom(), amount, Some((sch.owner, sch.order.assetOut)), t.amountOut);
      if !ok {
        return Failed(FundsUnavailable);
      }
      transientGas := 0;
      return Executed;
    }

    /** So is trading. */
    method Execute(id: Id, t: TradeInput) returns (r: TradeStatus, amountIn: nat)
      requires id in schedules
      modifies this
      ensures match ExecuteTrade(old(View()), id, t)
              case Traded(s, amount) => r == Executed && amountIn == amount && View() == s
              case NotTraded(e) => r == Failed(e) && View() == old(View())
    {
      hide Settle;
      var snapshot := View();
      transientGas := GasOf(View(), id);
      amountIn := 0;
      var quote := TradeAmount(snapshot, id, t);
      if quote.NoQuote? {
        r := Failed(quote.error);
      } else {
        amountIn := quote.amount;
        r := SettleTrade(id, amountIn, t);
      }
      if r.Failed? {
        Restore(snapshot);
      }
    }

    /* ---- ending a schedule ---- */

    method TryUnreserveAll(id: Id)
      requires id in schedules
      modifies this
      ensures View() == Refund(old(View()), id)
    {
      var k := schedules[id].SpentFrom();
      if id in remaining {
        var held := At(ledger, k);
        ledger := ledger[k := Unreserve(held, remaining[id])];
        Deposit(Unreserved(id, Min(remaining[id], held.dca)));
      }
    }

    method EndSchedule(id: Id, e: Event)
      requires id in schedules
      modifies this
      ensures View() == End(old(View()), id, e)
    {
      TryUnreserveAll(id);
      var owner := schedules[id].owner;
      schedules := schedules - {id};
      ownership := ownership - {(owner, id)};
      remaining := remaining - {id};
      retries := retries - {id};
      execBlock := execBlock - {id};
      extraGas := extraGas - {id};
      Deposit(e);
    }

    /* ---- one execution attempt ---- */

    method IncrementExtraGas(id: Id)
      requires id in schedules
      modifies this
      ensures View() == IncrementGas(old(View()), id)
    {
      var r := MaxRetries(cfg, schedules[id]);
      if r != 0 {
        extraGas := extraGas[id := Min(GasOf(View(), id) + MAX_EXTRA_GAS / r, MAX_EXTRA_GAS)];
      }
    }

    method RetryOrEnd(id: Id, draws: seq<nat>)
      requires id in schedules
      modifies this
      ensures View() == RetryOrTerminate(old(View()), id, draws)
    {
      hide Retry, End;
      Deposit(TradeFailed(id));
      ghost var failed := View();
      var ok := RetrySchedule(id, draws);
      if !ok {
        CounterIsForgotten(failed, View(), id, Terminated(id));
        EndSchedule(id, Terminated(id));
      }
    }

    method ReplanOrComplete(id: Id, r: ReplanInput, draws: seq<nat>)
      requires id in schedules
      modifies this
      ensures View() == Replanned(old(View()), id, r, draws)
    {
      hide Plan, End;
      match Decide(View(), id, r) {
        case Finish => EndSchedule(id, Completed(id));
        case GiveUp => EndSchedule(id, Terminated(id));
        case Again(block) =>
          var ok := PlanScheduleForBlock(id, NextPeriod, block, draws);
          if !ok {
            EndSchedule(id, Terminated(id));
          }
      }
    }

    method HandleTradeError(id: Id, e: TradeError, draws: seq<nat>)
      requires id in schedules
      modifies this
      ensures View() == AfterTradeError(old(View()), id, e, draws)
    {
      hide RetryOrTerminate, End;
      if schedules[id].Rolling() && e.FundsUnavailable? {
        EndSchedule(id, Completed(id));
        return;
      }
      if e.OutOfGas? {
        IncrementExtraGas(id);
      }
      if Retriable(e) {
        RetryOrEnd(id, draws);
      } else {
        Deposit(TradeFailed(id));
        EndSchedule(id, Terminated(id));
      }
    }

    method TradeAndReplan(id: Id, in_: Inputs)
      requires id in schedules
      modifies this
      ensures View() == Trade(old(View()), id, in_)
    {
      hide ExecuteTrade, AfterTradeError, Replanned;
      ghost var before := View();
      var r, amountIn := Execute(id, in_.trade);
      match r {
        case Failed(e) => HandleTradeError(id, e, in_.draws);
        case Executed =>
          TradeFields(before, id, in_.trade);
          retries := retries - {id};
          Deposit(TradeExecuted(id, amountIn));
          ReplanOrComplete(id, in_.replan, in_.draws);
      }
    }

    method ExecuteSchedule(id: Id, in_: Inputs)
      modifies this
      ensures View() == Attempt(old(View()), id, in_)
    {
      hide Plan, TakeFee, Trade, RetryOrTerminate, End, IncrementGas;
      Deposit(ExecutionStarted(id, now));
      if id !in schedules {
        return;
      }
      if in_.bump {
        var ok := PlanScheduleForBlock(id, Bumped, SatAdd(now, 1, U32_MAX), in_.draws);
        if !ok {
          EndSchedule(id, Terminated(id));
        }
        return;
      }
      ghost var before := View();
      var fee := TakeTransactionFee(id, in_.fee);
      match fee {
        case Unpaid => EndSchedule(id, Terminated(id));
        case OutOfGasForFee =>
          IncrementExtraGas(id);
          assert View().schedules == before.schedules by {
            GasFrame(before, id);
          }
          RetryOrEnd(id, in_.draws);
        case Paid =>
          FeeFields(before, id, in_.fee);
          if in_.unstable {
            RetryOrEnd(id, in_.draws);
          } else {
            TradeAndReplan(id, in_);
          }
      }
    }

    /** on_initialize: take the block's list, shuffled into `order`, and execute every id in it. */
    method OnNewBlock(order: seq<Id>, ins: seq<Inputs>)
      requires |order| == |ins|
      modifies this
      ensures View() == OnInitialize(old(View()), order, ins)
    {
      hide Attempt;
      now := now + 1;
      idsPerBlock := idsPerBlock - {now};
      var i := 0;
      while i < |order|
        invariant 0 <= i <= |order|
        invariant Attempts(View(), order[i..], ins[i..]) == OnInitialize(old(View()), order, ins)
      {
        assert order[i..][1..] == order[i + 1..] && ins[i..][1..] == ins[i + 1..];
        ExecuteSchedule(order[i], ins[i]);
        i := i + 1;
      }
    }

    /* ---- calls ---- */

    method InsertSchedule(sch: Schedule, reserve: nat)
      modifies this
      ensures View() == Insert(old(View()), sch, reserve)
    {
      var id := nextId;
      nextId := nextId + 1;
      schedules := schedules[id := sch];
      ownership := ownership + {(sch.owner, id)};
      remaining := remaining[id := reserve];
      retries := retries[id := 0];
    }

    method ScheduleOrder(who: Account, sch: Schedule, start: Option<Block>, c: CallInput) returns (r: CallStatus)
      modifies this
      ensures Agrees(old(View()), View(), r, ScheduleCall(old(View()), who, sch, start, c))
    {
      hide Plan, ReserveFor, FirstBlock, Reserve, Insert;
      if who != sch.owner {
        return Refused(Forbidden);
      }
      var (reserve, refusal) := ReserveFor(cfg, sch, c);
      if refusal.Some? {
        return Refused(refusal.value);
      }
      if nextId >= U32_MAX {
        return Refused(Overflow);
      }
      var k := sch.SpentFrom();
      var reserved := Reserve(At(ledger, k), reserve);
      if reserved.None? {
        return Refused(LiquidityRestrictions);
      }
      var first := FirstBlock(now, start);
      if first.None? {
        return Refused(Overflow);
      }
      var snapshot := View();
      var id := nextId;
      InsertSchedule(sch, reserve);
      ledger := ledger[k := reserved.value];
      var ok := PlanScheduleForBlock(id, First, first.value, c.draws);
      if !ok {
        Restore(snapshot);
        return Refused(NotPlanned);
      }
      Deposit(Scheduled(id, sch.total, reserve));
      return Accepted;
    }

    method TerminateOrder(who: Account, authority: bool, id: Id, at: Option<Block>) returns (r: CallStatus)
      modifies this
      ensures Agrees(old(View()), View(), r, TerminateCall(old(View()), who, authority, id, at))
    {
      hide End, Without;
      if id !in schedules {
        return Refused(ScheduleNotFound);
      }
      if !authority && who != schedules[id].owner {
        return Refused(Forbidden);
      }
      if at.None? && id !in execBlock {
        return Refused(ScheduleNotFound);
      }
      var b := if at.Some? then at.value else execBlock[id];
      var ids := IdsAt(idsPerBlock, b);
      if id !in ids {
        return Refused(ScheduleNotFound);
      }
      var left := Without(ids, id);
      if left == [] {
        idsPerBlock := idsPerBlock - {b};
      } else {
        idsPerBlock := idsPerBlock[b := left];
      }
      EndSchedule(id, Terminated(id));
      return Accepted;
    }

    method UnlockReserves(who: Account, asset: Asset) returns (r: CallStatus)
      modifies this
      ensures Agrees(old(View()), View(), r, UnlockCall(old(View()), who, asset))
    {
      if exists o :: o in ownership && o.0 == who {
        return Refused(HasActiveSchedules);
      }
      var b := At(ledger, (who, asset));
      if b.dca == 0 {
        return Refused(NoReservesLocked);
      }
      ledger := ledger[(who, asset) := Unreserve(b, b.dca)];
      Deposit(ReserveUnlocked(who, asset));
      return Accepted;
    }
  }

  /* ---- what the steps leave alone ---- */

  lemma GasFrame(s: State, id: Id)
    requires id in s.schedules
    ensures IncrementGas(s, id).schedules == s.schedules
  {}

  lemma CounterIsForgotten(s: State, s': State, id: Id, e: Event)
    requires id in s.schedules && s' == s.(retries := s'.retries) && s'.retries - {id} == s.retries - {id}
    ensures End(s', id, e) == End(s, id, e)
  {
    hide Unreserve, Min;
    var r, r' := Refund(s, id), Refund(s', id);
    assert r' == r.(retries := s'.retries) && r.retries == s.retries;
    hide Refund;
  }
}
