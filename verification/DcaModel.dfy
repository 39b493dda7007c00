/**
 * The DCA pallet as functions on its storage. A state holds every storage item of the
 * pallet, the balances it touches and the log of what it emitted; prices, fees, trade
 * results and random draws come in as inputs.
 */
module DcaModel {
  import opened Common
  import opened Ledger

  type Account = nat
  type Asset = nat
  type Id = nat
  type Block = nat
  type U8 = n: nat | n < 256
  type Key = (Account, Asset)

  const RESCHEDULING_ATTEMPTS: nat := 10 // MAX_NUMBER_OF_RETRY_FOR_RESCHEDULING
  const FEE_MULTIPLIER: nat := 20        // FEE_MULTIPLIER_FOR_MIN_TRADE_LIMIT
  const MAX_EXTRA_GAS: nat := 1_000_000
  const RETRY_PERIOD: nat := 20          // OraclePeriod::Short, in blocks
  const MAX_DELAY: nat := 2036           // the sum of the largest delays over all but the last probe

  datatype Order =
    | Sell(assetIn: Asset, assetOut: Asset, amountIn: nat)
    | Buy(assetIn: Asset, assetOut: Asset, amountOut: nat)

  datatype Schedule = Schedule(
    owner: Account,
    period: Block,
    total: nat,
    maxRetries: Option<U8>,
    stabilityThreshold: Option<nat>,
    order: Order)
  {
    predicate Rolling() {
      total == 0
    }

    function SpentFrom(): Key {
      (owner, order.assetIn)
    }
  }

  datatype Config = Config(
    maxPerBlock: nat,
    maxRetries: U8,
    minimalPeriod: Block,
    minimumTrade: nat,
    maxThreshold: nat,
    treasury: Account)

  datatype Reason = First | Bumped | Retried | NextPeriod

  datatype Event =
    | Scheduled(id: Id, total: nat, reserve: nat)
    | ExecutionStarted(id: Id, at: Block)
    | ExecutionPlanned(id: Id, reason: Reason, at: Block, requested: Block, block: Block)
    | FeeTaken(id: Id, drawn: nat, paid: nat)
    | TradeExecuted(id: Id, amountIn: nat)
    | TradeFailed(id: Id)
    | Unreserved(id: Id, amount: nat)
    | Terminated(id: Id)
    | Completed(id: Id)
    | ReserveUnlocked(who: Account, asset: Asset)

  /** The emitted events, the latest outermost. */
  datatype Log = NoEvents | Then(earlier: Log, last: Event)

  datatype State = State(
    cfg: Config,
    now: Block,
    nextId: Id,
    schedules: map<Id, Schedule>,
    ownership: set<(Account, Id)>,
    remaining: map<Id, nat>,
    retries: map<Id, nat>,
    execBlock: map<Id, Block>,
    idsPerBlock: map<Block, seq<Id>>,
    extraGas: map<Id, nat>,
    transientGas: nat,
    ledger: map<Key, Balance>,
    log: Log)

  /* ---- inputs ---- */

  datatype Charge = Charged | ChargeOutOfGas | ChargeFailed

  /** `budgeted` is the fee in the sold asset with any pool fee, None when it has no price. */
  datatype FeeInput = FeeInput(budgeted: Option<nat>, sufficientAsset: bool, swapped: nat, charge: Charge)

  datatype TradeError =
    TradeLimitReached | SlippageLimitReached | OutOfGas | RetryListed | FundsUnavailable | OtherError

  datatype Quote = Quoted(amount: nat) | NoQuote(error: TradeError)

  datatype TradeInput = TradeInput(buyQuote: Quote, failure: Option<TradeError>, amountOut: nat)

  datatype ReplanInput = ReplanInput(fee: Option<nat>, nextBuyAmountIn: Option<nat>)

  datatype Inputs = Inputs(
    bump: bool, fee: FeeInput, unstable: bool, trade: TradeInput, replan: ReplanInput, draws: seq<nat>)

  /* ---- storage access ---- */

  function Emit(s: State, e: Event): State {
    s.(log := Then(s.log, e))
  }

  function At(ledger: map<Key, Balance>, k: Key): Balance {
    if k in ledger then ledger[k] else EMPTY
  }

  function BalanceAt(s: State, k: Key): Balance {
    At(s.ledger, k)
  }

  function SetBalance(s: State, k: Key, b: Balance): State {
    s.(ledger := s.ledger[k := b])
  }

  function IdsAt(lists: map<Block, seq<Id>>, b: Block): seq<Id> {
    if b in lists then lists[b] else []
  }

  function RetriesOf(s: State, id: Id): nat {
    if id in s.retries then s.retries[id] else 0
  }

  function GasOf(s: State, id: Id): nat {
    if id in s.extraGas then s.extraGas[id] else 0
  }

  function MaxRetries(cfg: Config, sch: Schedule): nat {
    if sch.maxRetries.Some? then sch.maxRetries.value else cfg.maxRetries
  }

  function Pow2(n: nat): (r: nat)
    ensures r >= 1
  {
    if n == 0 then 1 else 2 * Pow2(n - 1)
  }

  /* ---- planning ---- */

  /** The `i`-th random delay, drawn from `2^i ..= 2^(i+1) - 1`. */
  function Delay(draws: seq<nat>, i: nat): nat {
    Pow2(i) + (if i < |draws| then draws[i] % Pow2(i) else 0)
  }

  /** find_next_free_block from its `i`-th probe on. */
  function FreeBlock(lists: map<Block, seq<Id>>, maxPerBlock: nat, block: Block, draws: seq<nat>, i: nat): Option<Block>
    decreases RESCHEDULING_ATTEMPTS + 1 - i
  {
    if i > RESCHEDULING_ATTEMPTS then None
    else if |IdsAt(lists, block)| < maxPerBlock then Some(block)
    else FreeBlock(lists, maxPerBlock, SatAdd(block, Delay(draws, i), U32_MAX), draws, i + 1)
  }

  function PlacedAt(s: State, id: Id, reason: Reason, requested: Block, b: Block): State {
    Emit(s.(idsPerBlock := s.idsPerBlock[b := IdsAt(s.idsPerBlock, b) + [id]],
            execBlock := s.execBlock[id := b]),
         ExecutionPlanned(id, reason, s.now, requested, b))
  }

  function Plan(s: State, id: Id, reason: Reason, requested: Block, draws: seq<nat>): Option<State> {
    if requested <= s.now then None
    else
      var free := FreeBlock(s.idsPerBlock, s.cfg.maxPerBlock, requested, draws, 0);
      if free.None? then None else Some(PlacedAt(s, id, reason, requested, free.value))
  }

  /** The block a retry asks for, or None when u32 arithmetic overflows. */
  function RetryBlock(now: Block, retries: nat): Option<Block> {
    var delay := RETRY_PERIOD * Pow2(retries);
    if delay <= U32_MAX && now + delay <= U32_MAX then Some(now + delay) else None
  }

  function Retry(s: State, id: Id, draws: seq<nat>): Option<State>
    requires id in s.schedules
  {
    var k := RetriesOf(s, id);
    if k >= MaxRetries(s.cfg, s.schedules[id]) || RetryBlock(s.now, k).None? then None
    else Plan(s.(retries := s.retries[id := k + 1]), id, Retried, RetryBlock(s.now, k).value, draws)
  }

  /* ---- budget ---- */

  function Unallocate(s: State, id: Id, amount: nat): Option<State>
    requires id in s.schedules
  {
    var k := s.schedules[id].SpentFrom();
    if s.schedules[id].Rolling() then Some(s)
    else if id !in s.remaining || s.remaining[id] < amount || BalanceAt(s, k).dca < amount then None
    else Some(SetBalance(s.(remaining := s.remaining[id := s.remaining[id] - amount]),
                         k, Unreserve(BalanceAt(s, k), amount)))
  }

  /** A transfer or swap: `amount` leaves `from` if it is spendable there, `credit` arrives at `to`. */
  function Move(ledger: map<Key, Balance>, from: Key, amount: nat, to: Option<Key>, credit: nat): Option<map<Key, Balance>> {
    var paid := Withdraw(At(ledger, from), amount);
    if paid.None? then None
    else
      var l := ledger[from := paid.value];
      Some(if to.None? then l else l[to.value := At(l, to.value).(free := At(l, to.value).free + credit)])
  }

  /** set_extra_gas: the dispatcher is lent the schedule's extra gas for the run. */
  function WithGas(s: State, id: Id): State {
    s.(transientGas := GasOf(s, id))
  }

  datatype FeeStatus = Paid | OutOfGasForFee | Unpaid

  /** A charge as it stands when it returns, before a failed one is rolled back. */
  datatype Charging = Charging(state: State, status: FeeStatus)

  /** What leaves the owner: the whole budgeted fee, or what the swap for it takes of it. */
  function PaidOf(f: FeeInput): nat
    requires f.budgeted.Some?
  {
    if f.sufficientAsset then f.budgeted.value else Min(f.swapped, f.budgeted.value)
  }

  function ChargeFee(s: State, id: Id, f: FeeInput): Charging
    requires id in s.schedules
  {
    var k := s.schedules[id].SpentFrom();
    var s0 := WithGas(s, id);
    if f.budgeted.None? then Charging(s0, Unpaid)
    else
      var unallocated := Unallocate(s0, id, f.budgeted.value);
      if unallocated.None? then Charging(s0, Unpaid)
      else if f.charge.ChargeOutOfGas? then Charging(unallocated.value, OutOfGasForFee)
      else
        var s1 := unallocated.value;
        var paid := PaidOf(f);
        var ledger := Move(s1.ledger, k, paid, if f.sufficientAsset then Some((s.cfg.treasury, k.1)) else None, paid);
        if f.charge.ChargeFailed? || ledger.None? then Charging(s1, Unpaid)
        else Charging(Emit(s1.(ledger := ledger.value, transientGas := 0), FeeTaken(id, f.budgeted.value, paid)), Paid)
  }

  datatype FeeResult = FeePaid(state: State) | FeeOutOfGas | FeeError

  /** take_transaction_fee_from_user; a failure rolls everything back, so only success carries a state. */
  function TakeFee(s: State, id: Id, f: FeeInput): FeeResult
    requires id in s.schedules
  {
    var c := ChargeFee(s, id, f);
    match c.status
    case Paid => FeePaid(c.state)
    case OutOfGasForFee => FeeOutOfGas
    case Unpaid => FeeError
  }

  /** A sell order trades what is left of the budget, up to its amount; a buy pays the quoted amount. */
  function TradeAmount(s: State, id: Id, t: TradeInput): Quote
    requires id in s.schedules
  {
    var order := s.schedules[id].order;
    if order.Buy? then t.buyQuote
    else if id in s.remaining then Quoted(Min(s.remaining[id], order.amountIn))
    else NoQuote(OtherError)
  }

  datatype TradeStatus = Executed | Failed(error: TradeError)

  /** A trade as it stands when it returns, before a failed one is rolled back. */
  datatype Trading = Trading(state: State, status: TradeStatus)

  function Settle(s: State, id: Id, amount: nat, t: TradeInput): Trading
    requires id in s.schedules
  {
    var sch := s.schedules[id];
    var unallocated := Unallocate(s, id, amount);
    if unallocated.None? then Trading(s, Failed(OtherError))
    else if t.failure.Some? then Trading(unallocated.value, Failed(t.failure.value))
    else
      var s1 := unallocated.value;
      var ledger := Move(s1.ledger, sch.SpentFrom(), amount, Some((sch.owner, sch.order.assetOut)), t.amountOut);
      if ledger.None? then Trading(s1, Failed(FundsUnavailable))
      else Trading(s1.(ledger := ledger.value, transientGas := 0), Executed)
  }

  datatype TradeResult = Traded(state: State, amountIn: nat) | NotTraded(error: TradeError)

  /** execute_trade; rolled back like the fee. */
  function ExecuteTrade(s: State, id: Id, t: TradeInput): TradeResult
    requires id in s.schedules
  {
    var amount := TradeAmount(s, id, t);
    if amount.NoQuote? then NotTraded(amount.error)
    else
      var done := Settle(WithGas(s, id), id, amount.amount, t);
      match done.status
      case Executed => Traded(done.state, amount.amount)
      case Failed(error) => NotTraded(error)
  }

  /* ---- ending a schedule ---- */

  /** try_unreserve_all. */
  function Refund(s: State, id: Id): State
    requires id in s.schedules
  {
    var k := s.schedules[id].SpentFrom();
    if id !in s.remaining then s
    else Emit(SetBalance(s, k, Unreserve(BalanceAt(s, k), s.remaining[id])),
              Unreserved(id, Min(s.remaining[id], BalanceAt(s, k).dca)))
  }

  /** remove_schedule_from_storages; the per-block lists are not touched. */
  function Forget(s: State, id: Id): State
    requires id in s.schedules
  {
    s.(schedules := s.schedules - {id},
       ownership := s.ownership - {(s.schedules[id].owner, id)},
       remaining := s.remaining - {id},
       retries := s.retries - {id},
       execBlock := s.execBlock - {id},
       extraGas := s.extraGas - {id})
  }

  /** terminate_schedule and complete_schedule differ in the event only. */
  function End(s: State, id: Id, e: Event): State
    requires id in s.schedules
  {
    Emit(Forget(Refund(s, id), id), e)
  }

  function Terminate(s: State, id: Id): State
    requires id in s.schedules
  {
    End(s, id, Terminated(id))
  }

  function Complete(s: State, id: Id): State
    requires id in s.schedules
  {
    End(s, id, Completed(id))
  }

  /* ---- one execution attempt ---- */

  function IncrementGas(s: State, id: Id): State
    requires id in s.schedules
  {
    var r := MaxRetries(s.cfg, s.schedules[id]);
    if r == 0 then s
    else s.(extraGas := s.extraGas[id := Min(GasOf(s, id) + MAX_EXTRA_GAS / r, MAX_EXTRA_GAS)])
  }

  predicate Retriable(e: TradeError) {
    e.TradeLimitReached? || e.SlippageLimitReached? || e.OutOfGas? || e.RetryListed?
  }

  function RetryOrTerminate(s: State, id: Id, draws: seq<nat>): State
    requires id in s.schedules
  {
    var failed := Emit(s, TradeFailed(id));
    var retried := Retry(failed, id, draws);
    if retried.Some? then retried.value else Terminate(failed, id)
  }

  /** What replan_or_complete decides once the trade is recorded; giving up terminates. */
  datatype Replan = Finish | Again(block: Block) | GiveUp

  function Decide(s: State, id: Id, r: ReplanInput): Replan
    requires id in s.schedules
  {
    var sch := s.schedules[id];
    if id !in s.remaining || r.fee.None? then GiveUp
    else if s.remaining[id] < Min(r.fee.value * FEE_MULTIPLIER, U128_MAX) || s.remaining[id] < s.cfg.minimumTrade then Finish
    else if sch.order.Buy? && !sch.Rolling() && (r.nextBuyAmountIn.None? || r.nextBuyAmountIn.value + r.fee.value > U128_MAX) then GiveUp
    else if sch.order.Buy? && !sch.Rolling() && s.remaining[id] < r.nextBuyAmountIn.value + r.fee.value then Finish
    else if s.now + sch.period > U32_MAX then GiveUp
    else Again(s.now + sch.period)
  }

  function Replanned(s: State, id: Id, r: ReplanInput, draws: seq<nat>): State
    requires id in s.schedules
  {
    match Decide(s, id, r)
    case Finish => Complete(s, id)
    case GiveUp => Terminate(s, id)
    case Again(block) =>
      var planned := Plan(s, id, NextPeriod, block, draws);
      if planned.Some? then planned.value else Terminate(s, id)
  }

  /** The trade goes on record and the failure count is dropped. */
  function Recorded(s: State, id: Id, amountIn: nat): State {
    Emit(s, TradeExecuted(id, amountIn)).(retries := s.retries - {id})
  }

  function AfterTradeError(s: State, id: Id, e: TradeError, draws: seq<nat>): State
    requires id in s.schedules
  {
    if s.schedules[id].Rolling() && e.FundsUnavailable? then Complete(s, id)
    else
      var s1 := if e.OutOfGas? then IncrementGas(s, id) else s;
      if Retriable(e) then RetryOrTerminate(s1, id, draws)
      else Terminate(Emit(s1, TradeFailed(id)), id)
  }

  function Trade(s: State, id: Id, in_: Inputs): State
    requires id in s.schedules
  {
    match ExecuteTrade(s, id, in_.trade)
    case Traded(s1, amountIn) => Replanned(Recorded(s1, id, amountIn), id, in_.replan, in_.draws)
    case NotTraded(e) => AfterTradeError(s, id, e, in_.draws)
  }

  function AfterFee(s: State, id: Id, in_: Inputs): State
    requires id in s.schedules
  {
    if in_.unstable then RetryOrTerminate(s, id, in_.draws) else Trade(s, id, in_)
  }

  function ChargeAndTrade(s: State, id: Id, in_: Inputs): State
    requires id in s.schedules
  {
    match TakeFee(s, id, in_.fee)
    case FeeError => Terminate(s, id)
    case FeeOutOfGas => RetryOrTerminate(IncrementGas(s, id), id, in_.draws)
    case FeePaid(s1) => AfterFee(s1, id, in_)
  }

  /** The body of the on_initialize loop for one schedule id. */
  function Attempt(s: State, id: Id, in_: Inputs): State {
    var s0 := Emit(s, ExecutionStarted(id, s.now));
    if id !in s0.schedules then s0
    else if in_.bump then
      var planned := Plan(s0, id, Bumped, SatAdd(s0.now, 1, U32_MAX), in_.draws);
      if planned.Some? then planned.value else Terminate(s0, id)
    else ChargeAndTrade(s0, id, in_)
  }

  /* ---- a block ---- */

  function TakeBlock(s: State): State {
    s.(now := s.now + 1, idsPerBlock := s.idsPerBlock - {s.now + 1})
  }

  function Attempts(s: State, order: seq<Id>, ins: seq<Inputs>): State
    requires |order| == |ins|
    decreases |order|
  {
    if order == [] then s
    else Attempts(Attempt(s, order[0], ins[0]), order[1..], ins[1..])
  }

  /** A new block: its list is taken, shuffled into `order`, and every id in it attempted. */
  function OnInitialize(s: State, order: seq<Id>, ins: seq<Inputs>): State
    requires |order| == |ins|
  {
    Attempts(TakeBlock(s), order, ins)
  }

  /* ---- calls ---- */

  datatype Error =
    | Forbidden | PeriodTooShort | StabilityThresholdTooHigh | MinTradeAmountNotReached
    | TotalAmountIsSmallerThanMinBudget | BudgetTooLow | Overflow | CalculatingPriceError
    | LiquidityRestrictions | NotPlanned | ScheduleNotFound | HasActiveSchedules | NoReservesLocked

  datatype Outcome = Ok(state: State) | Err(error: Error)

  datatype CallInput = CallInput(minBudget: Option<nat>, fee: Option<nat>, buyAmountIn: Option<nat>, draws: seq<nat>)

  /** get_first_execution_block: at least two blocks ahead; a requested start is rounded up to a multiple of five. */
  function FirstBlock(now: Block, start: Option<Block>): Option<Block> {
    match start
    case None => if now + 2 <= U32_MAX then Some(now + 2) else None
    case Some(b) =>
      var number := Max(SatAdd(now, 2, U32_MAX), b);
      Some(SatAdd(number, if number % 5 == 0 then 0 else 5 - number % 5, U32_MAX))
  }

  /** The amount a new schedule reserves, or the error of the first failing check. */
  function ReserveFor(cfg: Config, sch: Schedule, c: CallInput): (r: (nat, Option<Error>)) {
    if c.minBudget.None? then (0, Some(CalculatingPriceError))
    else if sch.period < cfg.minimalPeriod then (0, Some(PeriodTooShort))
    else if sch.stabilityThreshold.Some? && sch.stabilityThreshold.value > cfg.maxThreshold then (0, Some(StabilityThresholdTooHigh))
    else if c.fee.None? || (sch.order.Buy? && c.buyAmountIn.None?) then (0, Some(CalculatingPriceError))
    else
      var amountIn := if sch.order.Sell? then sch.order.amountIn else c.buyAmountIn.value;
      var twoTrades: nat := Min(2 * Min(amountIn + c.fee.value, U128_MAX), U128_MAX);
      if amountIn < Min(c.fee.value * FEE_MULTIPLIER, U128_MAX) || amountIn < cfg.minimumTrade then (0, Some(MinTradeAmountNotReached))
      else if sch.Rolling() then
        if twoTrades < c.minBudget.value then (0, Some(MinTradeAmountNotReached)) else (twoTrades, None)
      else if sch.total < c.minBudget.value then (0, Some(TotalAmountIsSmallerThanMinBudget))
      else if twoTrades > sch.total then (0, Some(BudgetTooLow))
      else (sch.total, None)
  }

  function Insert(s: State, sch: Schedule, reserve: nat): State {
    s.(nextId := s.nextId + 1,
       schedules := s.schedules[s.nextId := sch],
       ownership := s.ownership + {(sch.owner, s.nextId)},
       remaining := s.remaining[s.nextId := reserve],
       retries := s.retries[s.nextId := 0])
  }

  function ScheduleCall(s: State, who: Account, sch: Schedule, start: Option<Block>, c: CallInput): Outcome {
    if who != sch.owner then Err(Forbidden)
    else
      var (reserve, refusal) := ReserveFor(s.cfg, sch, c);
      if refusal.Some? then Err(refusal.value)
      else if s.nextId >= U32_MAX then Err(Overflow)
      else
        var reserved := Reserve(BalanceAt(s, sch.SpentFrom()), reserve);
        if reserved.None? then Err(LiquidityRestrictions)
        else
          var first := FirstBlock(s.now, start);
          if first.None? then Err(Overflow)
          else
            var s1 := SetBalance(Insert(s, sch, reserve), sch.SpentFrom(), reserved.value);
            var planned := Plan(s1, s.nextId, First, first.value, c.draws);
            if planned.None? then Err(NotPlanned)
            else Ok(Emit(planned.value, Scheduled(s.nextId, sch.total, reserve)))
  }

  function IndexOf(ids: seq<Id>, id: Id): (i: nat)
    ensures i <= |ids|
    ensures i < |ids| <==> id in ids
    ensures i < |ids| ==> ids[i] == id
  {
    if ids == [] then 0 else if ids[0] == id then 0 else 1 + IndexOf(ids[1..], id)
  }

  function Without(ids: seq<Id>, id: Id): seq<Id> {
    var i := IndexOf(ids, id);
    if i < |ids| then ids[..i] + ids[i + 1..] else ids
  }

  function Unplan(s: State, id: Id, b: Block): State {
    var left := Without(IdsAt(s.idsPerBlock, b), id);
    s.(idsPerBlock := if left == [] then s.idsPerBlock - {b} else s.idsPerBlock[b := left])
  }

  /** The extrinsic `terminate`; `authority` says the origin is the TerminateOrigin. */
  function TerminateCall(s: State, who: Account, authority: bool, id: Id, at: Option<Block>): Outcome {
    if id !in s.schedules then Err(ScheduleNotFound)
    else if !authority && who != s.schedules[id].owner then Err(Forbidden)
    else if at.None? && id !in s.execBlock then Err(ScheduleNotFound)
    else
      var b := if at.Some? then at.value else s.execBlock[id];
      if id !in IdsAt(s.idsPerBlock, b) then Err(ScheduleNotFound)
      else Ok(Terminate(Unplan(s, id, b), id))
  }

  function UnlockCall(s: State, who: Account, asset: Asset): Outcome {
    var b := BalanceAt(s, (who, asset));
    if exists o :: o in s.ownership && o.0 == who then Err(HasActiveSchedules)
    else if b.dca == 0 then Err(NoReservesLocked)
    else Ok(Emit(SetBalance(s, (who, asset), Unreserve(b, b.dca)), ReserveUnlocked(who, asset)))
  }
}
