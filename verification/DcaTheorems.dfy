/** The main results about the DCA pallet, over every run. */
module DcaTheorems {
  import opened Common
  import opened Ledger
  import opened DcaModel
  import opened DcaInvariant
  import opened DcaSteps
  import opened DcaAttempt
  import opened DcaAttemptLaws
  import opened DcaRuns
  import opened DcaTermination

  /* ---- reserves and budgets ---- */

  /** In every state of every run each DCA reserve is exactly the sum of the budgets of its schedules. */
  lemma ReserveIsSumOfBudgets(states: seq<State>, actions: seq<Action>, n: nat, k: Key)
    requires IsRun(states, actions) && Initial(states[0]) && n < |states|
    ensures BalanceAt(states[n], k).dca == SumMap(Budgets(states[n].schedules, states[n].remaining, k))
  {
    hide Keyed, Planned, Counters, Accounted;
    RunKeeps(states, actions, n);
  }

  /**
   * Every unit of a fixed budget is accounted for: sold, drawn for fees or still reserved while
   * the schedule lives; sold, drawn or refunded once it has ended. Of what is drawn for fees no
   * more is paid than was drawn. A rolling schedule draws nothing from its reserve and gets all
   * of it back.
   */
  lemma BudgetIsConserved(states: seq<State>, actions: seq<Action>, n: nat, id: Id)
    requires IsRun(states, actions) && Initial(states[0]) && n < |states|
    ensures var s := states[n]; var h := HistoryOf(s.log, id);
            && h.paid <= h.fees
            && (id in s.schedules && !s.schedules[id].Rolling() ==>
                  id in s.remaining && h.sold + h.fees + s.remaining[id] == s.schedules[id].total && h.refunded == 0)
            && (id in s.schedules && s.schedules[id].Rolling() ==>
                  id in s.remaining && s.remaining[id] == h.reserve && h.refunded == 0)
            && (id < s.nextId && id !in s.schedules ==>
                  id !in s.remaining && h.reserve == (if h.total == 0 then 0 else h.sold + h.fees) + h.refunded)
  {
    RunKeeps(states, actions, n);
    assert Accounted(states[n], id);
  }

  /** Ending a schedule moves its whole remaining budget from the reserve to the free balance. */
  lemma EndReturnsBudget(s: State, pending: set<Id>, id: Id, e: Event)
    requires Inv(s, pending) && id in s.schedules
    ensures var k := s.schedules[id].SpentFrom(); var b := BalanceAt(s, k);
            && id in s.remaining && s.remaining[id] <= b.dca
            && BalanceAt(End(s, id, e), k) == b.(free := b.free + s.remaining[id], dca := b.dca - s.remaining[id])
            && forall j | j != k :: BalanceAt(End(s, id, e), j) == BalanceAt(s, j)
  {
    ReserveCoversBudget(s, id);
    hide Planned, Reserves, Counters, Accounted;
  }

  /* ---- the plan ---- */

  /** `id` stands at index `i` of the list of block `b`. */
  ghost predicate Stands(s: State, id: Id, b: Block, i: nat) {
    i < |IdsAt(s.idsPerBlock, b)| && IdsAt(s.idsPerBlock, b)[i] == id
  }

  lemma StandsAtItsBlock(s: State, id: Id, b: Block, i: nat)
    requires Keyed(s) && Planned(s, {}) && Stands(s, id, b, i)
    ensures id in s.schedules && s.execBlock[id] == b > s.now
  {
    assert ListOk(s, {}, b);
    assert PlaceOk(s, {}, id);
  }

  /**
   * Between blocks every live schedule stands at exactly one place of exactly one list,
   * that of its own, future execution block; every listed id is a live schedule; and no
   * list is longer than the limit or lies in the past.
   */
  lemma PlannedExactlyOnce(s: State, id: Id)
    requires Inv(s, {})
    ensures id in s.schedules ==> id in s.execBlock && exists i :: Stands(s, id, s.execBlock[id], i)
    ensures forall b: Block, i: nat | Stands(s, id, b, i) :: id in s.schedules && s.execBlock[id] == b > s.now
    ensures forall b: Block, i: nat, c: Block, j: nat | Stands(s, id, b, i) && Stands(s, id, c, j) :: b == c && i == j
    ensures forall b | b in s.idsPerBlock :: s.now < b && |s.idsPerBlock[b]| <= s.cfg.maxPerBlock
  {
    hide Reserves, Counters, Accounted;
    if id in s.schedules {
      assert PlaceOk(s, {}, id);
      var i :| 0 <= i < |IdsAt(s.idsPerBlock, s.execBlock[id])| && IdsAt(s.idsPerBlock, s.execBlock[id])[i] == id;
      assert Stands(s, id, s.execBlock[id], i);
    }
    forall b: Block, i: nat | Stands(s, id, b, i) ensures id in s.schedules && s.execBlock[id] == b > s.now {
      StandsAtItsBlock(s, id, b, i);
    }
    forall b: Block, i: nat, c: Block, j: nat | Stands(s, id, b, i) && Stands(s, id, c, j) ensures b == c && i == j {
      StandsAtItsBlock(s, id, b, i);
      StandsAtItsBlock(s, id, c, j);
      assert ListOk(s, {}, b);
    }
    forall b | b in s.idsPerBlock ensures s.now < b && |s.idsPerBlock[b]| <= s.cfg.maxPerBlock {
      assert ListOk(s, {}, b);
      assert Stands(s, s.idsPerBlock[b][0], b, 0);
      StandsAtItsBlock(s, s.idsPerBlock[b][0], b, 0);
    }
  }

  lemma DueCount(s: State, id: Id)
    requires Planned(s, {})
    ensures multiset(IdsAt(s.idsPerBlock, s.now + 1))[id] == if id in s.execBlock && s.execBlock[id] == s.now + 1 then 1 else 0
  {
    var due := IdsAt(s.idsPerBlock, s.now + 1);
    assert ListOk(s, {}, s.now + 1);
    Single(due, id);
    if id in s.execBlock && s.execBlock[id] == s.now + 1 {
      assert PlaceOk(s, {}, id);
      assert id in multiset(due);
    } else {
      assert id !in due;
    }
  }

  /** In a block each due schedule is attempted exactly once and no other is, in any shuffle. */
  lemma EachDueAttemptedOnce(s: State, order: seq<Id>, ins: seq<Inputs>)
    requires Inv(s, {}) && Shuffles(s, order) && |order| == |ins|
    ensures Starts(OnInitialize(s, order, ins).log) == Starts(s.log) + order
    ensures forall id :: multiset(order)[id] == if id in s.execBlock && s.execBlock[id] == s.now + 1 then 1 else 0
  {
    hide Attempts, Keyed, Planned, Reserves, Counters, Accounted;
    AttemptsStarts(TakeBlock(s), order, ins);
    forall id ensures multiset(order)[id] == if id in s.execBlock && s.execBlock[id] == s.now + 1 then 1 else 0 {
      DueCount(s, id);
    }
  }

  lemma {:induction false} Pow2Grows(m: nat, n: nat)
    requires m <= n
    ensures Pow2(m) <= Pow2(n)
  {
    if m < n {
      Pow2Grows(m, n - 1);
    }
  }

  /* ---- retries ---- */

  /**
   * With k failures in a row the schedule waits for the block of the first of them plus
   * 20 * (2^k - 1), plus a slack to which every bump and every retry displaced by a full block
   * since then added between 1 and 2037 blocks: so none exactly if there was none of either.
   */
  lemma RetriesBackOff(states: seq<State>, actions: seq<Action>, n: nat, id: Id)
    requires IsRun(states, actions) && Initial(states[0]) && n < |states|
    ensures var s := states[n]; var h := HistoryOf(s.log, id);
            id in s.schedules ==>
              && RetriesOf(s, id) == h.failures <= MaxRetries(s.cfg, s.schedules[id])
              && id in s.execBlock
              && (h.failures > 0 ==>
                    && s.execBlock[id] == h.firstFailure + RETRY_PERIOD * (Pow2(h.failures) - 1) + h.slack
                    && h.displaced <= h.failures
                    && h.displaced + h.bumped <= h.slack <= 2036 * h.displaced + 2037 * h.bumped
                    && (h.slack == 0 <==> h.displaced == 0 && h.bumped == 0))
  {
    hide Planned, Reserves;
    RunKeeps(states, actions, n);
    assert Accounted(states[n], id);
  }

  /** A retry from here can be planned. */
  predicate RetryPossible(s: State, id: Id, draws: seq<nat>)
    requires id in s.schedules
  {
    var k := RetriesOf(s, id);
    && k < MaxRetries(s.cfg, s.schedules[id])
    && s.now + RETRY_PERIOD * Pow2(k) <= U32_MAX
    && FreeBlock(s.idsPerBlock, s.cfg.maxPerBlock, s.now + RETRY_PERIOD * Pow2(k), draws, 0).Some?
  }

  /** A retriable failure leaves the schedule alive exactly if a retry can be planned. */
  lemma RetrySurvivesIff(s: State, id: Id, draws: seq<nat>)
    requires id in s.schedules
    ensures id in RetryOrTerminate(s, id, draws).schedules <==> RetryPossible(s, id, draws)
  {
    hide FreeBlock, Pow2, End;
    EndTerms(Emit(s, TradeFailed(id)), id, Terminated(id));
  }

  lemma InvLive(s: State, pending: set<Id>, id: Id)
    requires Inv(s, pending) && id in pending
    ensures id in s.schedules && id in s.execBlock && s.execBlock[id] == s.now <= U32_MAX
  {
    assert PlaceOk(s, pending, id);
  }

  lemma Pow2Of28()
    ensures Pow2(28) == 0x1000_0000
  {
    assert Pow2(7) == 128;
    assert Pow2(14) == 16384;
    assert Pow2(21) == 2097152;
  }

  lemma BackoffFitsU32(k: nat)
    requires RETRY_PERIOD * (Pow2(k) - 1) <= U32_MAX
    ensures k <= 27
  {
    Pow2Of28();
    if k >= 28 {
      Pow2Grows(28, k);
    }
  }

  /** Whatever max_retries says, 27 retries in a row are the most a u32 block number leaves room for. */
  lemma RetryCeiling(s: State, pending: set<Id>, id: Id)
    requires Inv(s, pending) && id in s.schedules
    ensures RetriesOf(s, id) <= Min(MaxRetries(s.cfg, s.schedules[id]), 27)
  {
    hide Reserves;
    assert Accounted(s, id);
    assert PlaceOk(s, pending, id);
    BackoffFitsU32(RetriesOf(s, id));
  }

  /**
   * So a schedule with max_retries r is not always removed on failure r + 1: after 27
   * failures the next one removes it for every r, for instance r = 255.
   */
  lemma LargeRetryLimitIsCut(s: State, pending: set<Id>, id: Id, draws: seq<nat>)
    requires Inv(s, pending) && id in pending && RetriesOf(s, id) == 27
    ensures id !in RetryOrTerminate(s, id, draws).schedules
  {
    InvLive(s, pending, id);
    RetrySurvivesIff(s, id, draws);
    CeilingBlock(s, pending, id);
  }

  lemma CeilingBlock(s: State, pending: set<Id>, id: Id)
    requires Inv(s, pending) && id in pending && RetriesOf(s, id) == 27
    ensures s.now + RETRY_PERIOD * Pow2(27) > U32_MAX
  {
    hide Reserves;
    assert Accounted(s, id);
    assert PlaceOk(s, pending, id);
    Pow2Of28();
    assert Pow2(28) == 2 * Pow2(27);
  }

  /* ---- termination ---- */

  ghost predicate Bounded(s: State, id: Id) {
    id in s.schedules && id in s.remaining && !s.schedules[id].Rolling() ==>
      Measure(s, id) <= Times(s.schedules[id].total, Weight(s, id))
  }

  lemma UntouchedBounded(s: State, s': State, id: Id)
    requires Untouched(s, s', id) && s'.cfg == s.cfg && Bounded(s, id)
    ensures Bounded(s', id)
  {}

  /** An attempt leaves every schedule's terms as they are, except that it may remove its own. */
  ghost predicate SameTerms(s: State, s': State, id: Id) {
    s'.schedules == s.schedules || s'.schedules == s.schedules - {id}
  }

  lemma EndTerms(s: State, id: Id, e: Event)
    requires id in s.schedules
    ensures End(s, id, e).schedules == s.schedules - {id}
  {}

  lemma RetryOrTerminateTerms(s: State, id: Id, draws: seq<nat>)
    requires id in s.schedules
    ensures SameTerms(s, RetryOrTerminate(s, id, draws), id)
  {
    hide End, FreeBlock;
    EndTerms(Emit(s, TradeFailed(id)), id, Terminated(id));
  }

  lemma AfterTradeErrorTerms(s: State, id: Id, e: TradeError, draws: seq<nat>)
    requires id in s.schedules
    ensures SameTerms(s, AfterTradeError(s, id, e, draws), id)
  {
    hide End, RetryOrTerminate;
    EndTerms(s, id, Completed(id));
    EndTerms(Emit(s, TradeFailed(id)), id, Terminated(id));
    RetryOrTerminateTerms(s, id, draws);
    RetryOrTerminateTerms(IncrementGas(s, id), id, draws);
  }

  lemma ReplannedTerms(s: State, id: Id, r: ReplanInput, draws: seq<nat>)
    requires id in s.schedules
    ensures SameTerms(s, Replanned(s, id, r, draws), id)
  {
    hide End, FreeBlock, Decide;
    EndTerms(s, id, Completed(id));
    EndTerms(s, id, Terminated(id));
  }

  lemma TradeTerms(s: State, id: Id, in_: Inputs)
    requires id in s.schedules
    ensures SameTerms(s, Trade(s, id, in_), id)
  {
    hide ExecuteTrade, AfterTradeError, Replanned;
    match ExecuteTrade(s, id, in_.trade)
    case Traded(m, amountIn) =>
      TradeFields(s, id, in_.trade);
      ReplannedTerms(Recorded(m, id, amountIn), id, in_.replan, in_.draws);
    case NotTraded(e) => AfterTradeErrorTerms(s, id, e, in_.draws);
  }

  lemma AttemptTerms(s: State, id: Id, in_: Inputs)
    requires id in s.schedules
    ensures SameTerms(s, Attempt(s, id, in_), id)
  {
    hide TakeFee, Trade, RetryOrTerminate, FreeBlock, End;
    var s0 := Emit(s, ExecutionStarted(id, s.now));
    EndTerms(s0, id, Terminated(id));
    if !in_.bump {
      match TakeFee(s0, id, in_.fee)
      case FeeError =>
      case FeeOutOfGas => RetryOrTerminateTerms(IncrementGas(s0, id), id, in_.draws);
      case FeePaid(s1) =>
        FeeFields(s0, id, in_.fee);
        RetryOrTerminateTerms(s1, id, in_.draws);
        TradeTerms(s1, id, in_);
    }
  }

  lemma AttemptBounded(s: State, pending: set<Id>, id: Id, in_: Inputs, j: Id)
    requires Inv(s, pending) && id in pending && Bounded(s, j)
    ensures Bounded(Attempt(s, id, in_), j)
  {
    hide Attempt, Planned, Reserves, Accounted, Measure;
    AttemptSettles(s, pending, id, in_);
    if j != id {
      UntouchedBounded(s, Attempt(s, id, in_), j);
    } else {
      InvLive(s, pending, id);
      if s.schedules[id].Rolling() {
        AttemptTerms(s, id, in_);
      } else {
        AttemptLowers(s, id, in_);
      }
    }
  }

  lemma {:induction false} AttemptsBounded(s: State, order: seq<Id>, ins: seq<Inputs>, j: Id)
    requires |order| == |ins| && NoDuplicates(order) && Inv(s, IdSet(order)) && Bounded(s, j)
    ensures Bounded(Attempts(s, order, ins), j)
    decreases |order|
  {
    hide Attempt, Inv, Bounded;
    if order != [] {
      var s1 := Attempt(s, order[0], ins[0]);
      IdSetStep(order);
      AttemptSettles(s, IdSet(order), order[0], ins[0]);
      AttemptBounded(s, IdSet(order), order[0], ins[0], j);
      AttemptsBounded(s1, order[1..], ins[1..], j);
    }
  }

  lemma BlockBounded(s: State, order: seq<Id>, ins: seq<Inputs>, j: Id)
    requires Inv(s, {}) && s.now < U32_MAX && Shuffles(s, order) && |order| == |ins| && Bounded(s, j)
    ensures Bounded(OnInitialize(s, order, ins), j)
  {
    hide Attempts, Inv;
    BlockStart(s, order);
    AttemptsBounded(TakeBlock(s), order, ins, j);
  }

  lemma BlockStart(s: State, order: seq<Id>)
    requires Inv(s, {}) && s.now < U32_MAX && Shuffles(s, order)
    ensures NoDuplicates(order) && Inv(TakeBlock(s), IdSet(order))
  {
    var due := IdsAt(s.idsPerBlock, s.now + 1);
    assert ListOk(s, {}, s.now + 1);
    TakeBlockPends(s);
    ShuffleFacts(order, due);
    assert IdSet(order) == IdSet(due);
  }

  lemma CreateBounded(s: State, who: Account, sch: Schedule, start: Option<Block>, c: CallInput, j: Id)
    requires Inv(s, {}) && ScheduleCall(s, who, sch, start, c).Ok? && Bounded(s, j)
    ensures Bounded(ScheduleCall(s, who, sch, start, c).state, j)
  {
    hide ScheduleCall, Planned, Reserves, Counters;
    var reserve, balance, requested, b := ScheduleShape(s, who, sch, start, c);
    assert Accounted(s, j);
    CreatedBounded(s, sch, reserve, balance, requested, b, j);
  }

  lemma CreatedBounded(s: State, sch: Schedule, reserve: nat, balance: Balance, requested: Block, b: Block, j: Id)
    requires Keyed(s) && Bounded(s, j) && (!sch.Rolling() ==> reserve == sch.total)
    ensures Bounded(CreatedAt(s, sch, reserve, balance, requested, b), j)
  {
    var s' := CreatedAt(s, sch, reserve, balance, requested, b);
    var planned := Then(s.log, ExecutionPlanned(s.nextId, First, s.now, requested, b));
    assert s'.log == Then(planned, Scheduled(s.nextId, sch.total, reserve));
    assert HistoryOf(planned, j) == HistoryOf(s.log, j);
    if j != s.nextId {
      assert HistoryOf(s'.log, j) == HistoryOf(s.log, j);
    } else {
      assert HistoryOf(s'.log, j) == BLANK.(total := sch.total, reserve := reserve);
    }
  }

  lemma CancelBounded(s: State, id: Id, b: Block, j: Id)
    requires id in s.schedules && Bounded(s, j)
    ensures Bounded(Terminate(Unplan(s, id, b), id), j)
  {
    var u := Unplan(s, id, b);
    EndedEffect(u, id, Terminated(id));
    assert Bounded(u, j);
    if j != id {
      UntouchedBounded(u, Terminate(u, id), j);
    }
  }

  lemma StepBounded(s: State, a: Action, j: Id)
    requires Inv(s, {}) && Enabled(s, a) && Bounded(s, j)
    ensures Bounded(Step(s, a), j)
  {
    hide Inv, Measure, ScheduleCall, OnInitialize, Terminate, Unplan;
    match a
    case NewBlock(order, ins) => BlockBounded(s, order, ins, j);
    case Create(who, sch, start, c) =>
      if ScheduleCall(s, who, sch, start, c).Ok? {
        CreateBounded(s, who, sch, start, c, j);
      }
    case Cancel(who, authority, id, at) =>
      if TerminateCall(s, who, authority, id, at).Ok? {
        CancelBounded(s, id, if at.Some? then at.value else s.execBlock[id], j);
      }
    case Unlock(who, asset) => UnlockFindsNothing(s, {}, who, asset);
    case Elsewhere(k, free, other, frozen) => ElsewhereBounded(s, k, Balance(free, BalanceAt(s, k).dca, other, frozen), j);
  }

  lemma ElsewhereBounded(s: State, k: Key, b: Balance, j: Id)
    requires Bounded(s, j)
    ensures Bounded(SetBalance(s, k, b), j)
  {}

  lemma {:induction false} RunBounded(states: seq<State>, actions: seq<Action>, n: nat, id: Id)
    requires IsRun(states, actions) && Initial(states[0]) && n < |states|
    ensures Bounded(states[n], id)
  {
    hide Bounded, Inv, Step, Enabled;
    if n == 0 {
      InitialBounded(states[0], id);
    } else {
      RunKeeps(states, actions, n - 1);
      RunBounded(states, actions, n - 1, id);
      StepBounded(states[n - 1], actions[n - 1], id);
    }
  }

  lemma InitialBounded(s: State, id: Id)
    requires Initial(s)
    ensures Bounded(s, id)
  {}

  /**
   * With budget B and at most r retries in a row a fixed-budget schedule is alive for at most
   * (B + i) * (r + 1) + r attempts that are not bumps, where i counts the idle ones, the
   * successes that cost neither fee nor trade.
   */
  lemma FixedBudgetEnds(states: seq<State>, actions: seq<Action>, n: nat, id: Id)
    requires IsRun(states, actions) && Initial(states[0]) && n < |states|
    ensures var s := states[n]; var h := HistoryOf(s.log, id);
            id in s.schedules && !s.schedules[id].Rolling() ==>
              var r := MaxRetries(s.cfg, s.schedules[id]);
              h.started - h.bumps <= (s.schedules[id].total + h.idle) * (r + 1) + r
  {
    var s := states[n];
    RunBounded(states, actions, n, id);
    if id in s.schedules {
      EndsBound(states, actions, n, id);
    }
  }

  lemma KeyedLive(s: State, id: Id)
    requires Keyed(s) && id in s.schedules
    ensures id in s.remaining
  {}

  lemma TimesSum(m: nat, n: nat, w: nat)
    ensures Times(m, w) + Times(n, w) == (m + n) * w
  {
    TimesIsProduct(m, w);
    TimesIsProduct(n, w);
  }

  lemma EndsBound(states: seq<State>, actions: seq<Action>, n: nat, id: Id)
    requires IsRun(states, actions) && Initial(states[0]) && n < |states|
    requires id in states[n].schedules && Bounded(states[n], id)
    ensures var s := states[n]; var h := HistoryOf(s.log, id);
            !s.schedules[id].Rolling() ==>
              h.started - h.bumps <= (s.schedules[id].total + h.idle) * Weight(s, id) + MaxRetries(s.cfg, s.schedules[id])
  {
    hide Keyed, Planned, Reserves, Accounted, HistoryOf, Times;
    RunKeeps(states, actions, n);
    assert id in states[n].remaining by {
      KeyedLive(states[n], id);
    }
    TimesSum(states[n].schedules[id].total, HistoryOf(states[n].log, id).idle, Weight(states[n], id));
  }

  /** An attempt of a buy order that is charged nothing and buys for nothing. */
  function Idle(draws: seq<nat>): Inputs {
    Inputs(false, FeeInput(Some(0), true, 0, Charged), false, TradeInput(Quoted(0), None, 0), ReplanInput(Some(0), Some(0)), draws)
  }

  /** For inputs without any price idle attempts have to be counted: one leaves the budget whole and is planned again. */
  lemma IdleAttemptChangesNoBudget(s: State, id: Id, draws: seq<nat>)
    requires id in s.schedules && id in s.remaining && s.remaining[id] >= s.cfg.minimumTrade
    requires s.schedules[id].order.Buy? && !s.schedules[id].Rolling() && s.schedules[id].period > 0
    requires s.now + s.schedules[id].period <= U32_MAX
    requires |IdsAt(s.idsPerBlock, s.now + s.schedules[id].period)| < s.cfg.maxPerBlock
    ensures var s' := Attempt(s, id, Idle(draws));
            && s'.schedules == s.schedules && s'.remaining == s.remaining
            && id in s'.execBlock && s'.execBlock[id] == s.now + s.schedules[id].period
  {
    hide TakeFee, Trade, IdsAt, Plan;
    var s0 := Emit(s, ExecutionStarted(id, s.now));
    IdleFee(s0, id, draws);
    IdleTrade(TakeFee(s0, id, Idle(draws).fee).state, id, draws);
  }

  lemma UnallocateNothing(s: State, id: Id)
    requires id in s.schedules && id in s.remaining
    ensures Unallocate(s, id, 0).Some?
    ensures var s' := Unallocate(s, id, 0).value; s' == s.(ledger := s'.ledger)
  {
    if !s.schedules[id].Rolling() {
      assert s.remaining[id := s.remaining[id] - 0] == s.remaining;
    }
  }

  lemma MoveNothing(ledger: map<Key, Balance>, from: Key, to: Option<Key>, credit: nat)
    ensures Move(ledger, from, 0, to, credit).Some?
  {}

  lemma IdleFee(s: State, id: Id, draws: seq<nat>)
    requires id in s.schedules && id in s.remaining
    ensures var r := TakeFee(s, id, Idle(draws).fee);
            r.FeePaid? && r.state == s.(ledger := r.state.ledger, transientGas := 0, log := r.state.log)
  {
    hide Unallocate, Move;
    var k := s.schedules[id].SpentFrom();
    UnallocateNothing(WithGas(s, id), id);
    MoveNothing(Unallocate(WithGas(s, id), id, 0).value.ledger, k, Some((s.cfg.treasury, k.1)), 0);
  }

  lemma IdleSettle(s: State, id: Id, draws: seq<nat>)
    requires id in s.schedules && id in s.remaining && s.schedules[id].order.Buy?
    ensures var r := ExecuteTrade(s, id, Idle(draws).trade);
            r.Traded? && r.amountIn == 0 && r.state == s.(ledger := r.state.ledger, transientGas := 0)
  {
    hide Unallocate, Move;
    var sch := s.schedules[id];
    UnallocateNothing(WithGas(s, id), id);
    MoveNothing(Unallocate(WithGas(s, id), id, 0).value.ledger, sch.SpentFrom(), Some((sch.owner, sch.order.assetOut)), 0);
  }

  lemma IdleTrade(s: State, id: Id, draws: seq<nat>)
    requires id in s.schedules && id in s.remaining && s.remaining[id] >= s.cfg.minimumTrade
    requires s.schedules[id].order.Buy? && !s.schedules[id].Rolling() && s.schedules[id].period > 0
    requires s.now + s.schedules[id].period <= U32_MAX
    requires |IdsAt(s.idsPerBlock, s.now + s.schedules[id].period)| < s.cfg.maxPerBlock
    ensures var s' := Trade(s, id, Idle(draws));
            && s'.schedules == s.schedules && s'.remaining == s.remaining
            && id in s'.execBlock && s'.execBlock[id] == s.now + s.schedules[id].period
  {
    hide ExecuteTrade, Replanned, AfterTradeError, IdsAt;
    IdleSettle(s, id, draws);
    var r := ExecuteTrade(s, id, Idle(draws).trade);
    IdleReplan(Recorded(r.state, id, 0), id, draws);
  }

  lemma IdleReplan(s: State, id: Id, draws: seq<nat>)
    requires id in s.schedules && id in s.remaining && s.remaining[id] >= s.cfg.minimumTrade
    requires s.schedules[id].order.Buy? && !s.schedules[id].Rolling() && s.schedules[id].period > 0
    requires s.now + s.schedules[id].period <= U32_MAX
    requires |IdsAt(s.idsPerBlock, s.now + s.schedules[id].period)| < s.cfg.maxPerBlock
    ensures var s' := Replanned(s, id, Idle(draws).replan, draws);
            && s'.schedules == s.schedules && s'.remaining == s.remaining
            && id in s'.execBlock && s'.execBlock[id] == s.now + s.schedules[id].period
  {
    var block := s.now + s.schedules[id].period;
    assert Decide(s, id, Idle(draws).replan) == Again(block);
    hide Decide, End;
    FreeBlockIsNear(s.idsPerBlock, s.cfg.maxPerBlock, block, draws);
    hide FreeBlock;
  }

  /* ---- extra gas ---- */

  lemma {:induction false} AttemptsGas(s: State, order: seq<Id>, ins: seq<Inputs>, j: Id)
    requires |order| == |ins| && NoDuplicates(order) && Inv(s, IdSet(order))
    ensures j in s.schedules && j in Attempts(s, order, ins).schedules ==> GasOf(s, j) <= GasOf(Attempts(s, order, ins), j)
    ensures j !in s.schedules ==> j !in Attempts(s, order, ins).schedules
    decreases |order|
  {
    hide Attempt, Inv, Untouched;
    if order != [] {
      var s1 := Attempt(s, order[0], ins[0]);
      IdSetStep(order);
      AttemptSettles(s, IdSet(order), order[0], ins[0]);
      OneAttemptGas(s, IdSet(order), order[0], ins[0], j);
      AttemptsGas(s1, order[1..], ins[1..], j);
    }
  }

  lemma OneAttemptGas(s: State, pending: set<Id>, id: Id, in_: Inputs, j: Id)
    requires Inv(s, pending) && id in pending
    ensures j in s.schedules && j in Attempt(s, id, in_).schedules ==> GasOf(s, j) <= GasOf(Attempt(s, id, in_), j)
    ensures j !in s.schedules ==> j !in Attempt(s, id, in_).schedules
  {
    hide Attempt, Planned, Reserves, Accounted;
    AttemptSettles(s, pending, id, in_);
    InvLive(s, pending, id);
    AttemptGas(s, id, in_);
    assert j != id ==> Untouched(s, Attempt(s, id, in_), j);
  }

  /** Living through a step does not shrink the extra gas, and ids are never reused. */
  ghost predicate GasCarried(s: State, s': State, j: Id) {
    && (j in s.schedules && j in s'.schedules ==> GasOf(s, j) <= GasOf(s', j))
    && (j < s.nextId && j !in s.schedules ==> j !in s'.schedules)
    && s.nextId <= s'.nextId
  }

  lemma BlockGas(s: State, order: seq<Id>, ins: seq<Inputs>, j: Id)
    requires Inv(s, {}) && s.now < U32_MAX && Shuffles(s, order) && |order| == |ins|
    ensures GasCarried(s, OnInitialize(s, order, ins), j)
  {
    hide Inv, Attempts;
    BlockStart(s, order);
    AttemptsGas(TakeBlock(s), order, ins, j);
    AttemptsNextId(TakeBlock(s), order, ins);
  }

  lemma CreateGas(s: State, who: Account, sch: Schedule, start: Option<Block>, c: CallInput, j: Id)
    requires Keyed(s) && ScheduleCall(s, who, sch, start, c).Ok?
    ensures GasCarried(s, ScheduleCall(s, who, sch, start, c).state, j)
  {
    hide ScheduleCall;
    var reserve, balance, requested, b := ScheduleShape(s, who, sch, start, c);
  }

  lemma CancelGas(s: State, id: Id, b: Block, j: Id)
    requires id in s.schedules
    ensures GasCarried(s, Terminate(Unplan(s, id, b), id), j)
  {}

  lemma StepGas(s: State, a: Action, j: Id)
    requires Inv(s, {}) && Enabled(s, a)
    ensures GasCarried(s, Step(s, a), j)
  {
    hide Planned, Reserves, Counters, Accounted, OnInitialize, ScheduleCall, Terminate, Unplan;
    match a
    case NewBlock(order, ins) => BlockGas(s, order, ins, j);
    case Create(who, sch, start, c) =>
      if ScheduleCall(s, who, sch, start, c).Ok? {
        CreateGas(s, who, sch, start, c, j);
      }
    case Cancel(who, authority, id, at) =>
      if TerminateCall(s, who, authority, id, at).Ok? {
        CancelGas(s, id, if at.Some? then at.value else s.execBlock[id], j);
      }
    case Unlock(who, asset) => UnlockFindsNothing(s, {}, who, asset);
    case Elsewhere(k, free, other, frozen) =>
  }

  lemma {:induction false} AttemptsNextId(s: State, order: seq<Id>, ins: seq<Inputs>)
    requires |order| == |ins| && NoDuplicates(order) && Inv(s, IdSet(order))
    ensures Attempts(s, order, ins).nextId == s.nextId
    decreases |order|
  {
    hide Attempt, Inv, Untouched;
    if order != [] {
      IdSetStep(order);
      AttemptSettles(s, IdSet(order), order[0], ins[0]);
      AttemptsNextId(Attempt(s, order[0], ins[0]), order[1..], ins[1..]);
    }
  }

  /**
   * Along a run the extra gas of a schedule never decreases while it lives, stays within the
   * cap, and is gone once the schedule is; the dispatcher's transient gas is zero throughout.
   */
  lemma {:induction false} ExtraGasOverRuns(states: seq<State>, actions: seq<Action>, m: nat, n: nat, id: Id)
    requires IsRun(states, actions) && Initial(states[0]) && m <= n < |states|
    ensures id in states[m].schedules && id in states[n].schedules ==> GasOf(states[m], id) <= GasOf(states[n], id) <= MAX_EXTRA_GAS
    ensures id < states[m].nextId && id !in states[m].schedules ==> id !in states[n].schedules
    ensures id !in states[n].schedules ==> id !in states[n].extraGas
    ensures states[n].transientGas == 0 && states[m].nextId <= states[n].nextId
    decreases n
  {
    hide Planned, Reserves, Accounted, Step, Enabled;
    RunKeeps(states, actions, n);
    RunKeeps(states, actions, m);
    if m < n {
      RunKeeps(states, actions, n - 1);
      ExtraGasOverRuns(states, actions, m, n - 1, id);
      StepGas(states[n - 1], actions[n - 1], id);
    }
  }

  /* ---- locks ---- */

  lemma {:induction false} AttemptsCover(s: State, order: seq<Id>, ins: seq<Inputs>, k: Key)
    requires |order| == |ins| && NoDuplicates(order) && Inv(s, IdSet(order)) && Covered(BalanceAt(s, k))
    ensures Covered(BalanceAt(Attempts(s, order, ins), k))
    decreases |order|
  {
    hide Attempt, Inv, Covered;
    if order != [] {
      IdSetStep(order);
      InvLive(s, IdSet(order), order[0]);
      AttemptSettles(s, IdSet(order), order[0], ins[0]);
      AttemptCover(s, order[0], ins[0], k);
      AttemptsCover(Attempt(s, order[0], ins[0]), order[1..], ins[1..], k);
    }
  }

  /** Nothing the pallet does, block or call, takes an account's total below its lock. */
  lemma PalletKeepsLocksCovered(s: State, a: Action, k: Key)
    requires Inv(s, {}) && Enabled(s, a) && !a.Elsewhere? && Covered(BalanceAt(s, k))
    ensures Covered(BalanceAt(Step(s, a), k))
  {
    hide Inv, Attempts, ScheduleCall, Terminate;
    match a
    case NewBlock(order, ins) =>
      BlockStart(s, order);
      AttemptsCover(TakeBlock(s), order, ins, k);
    case Create(who, sch, start, c) =>
      if ScheduleCall(s, who, sch, start, c).Ok? {
        var reserve, balance, requested, b := ScheduleShape(s, who, sch, start, c);
      }
    case Cancel(who, authority, id, at) =>
      if TerminateCall(s, who, authority, id, at).Ok? {
        CancelCover(Unplan(s, id, if at.Some? then at.value else s.execBlock[id]), id, k);
      }
    case Unlock(who, asset) => UnlockFindsNothing(s, {}, who, asset);
  }

  lemma CancelCover(s: State, id: Id, k: Key)
    requires id in s.schedules
    ensures CoverKept(s, Terminate(s, id), k)
  {
    hide Covered;
    EndCover(s, id, Terminated(id), k);
  }
}
