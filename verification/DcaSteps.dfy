/** Every step of an execution attempt keeps the invariant and touches one schedule only. */
module DcaSteps {
  import opened Common
  import opened Ledger
  import opened DcaModel
  import opened DcaInvariant

  /** The invariant after a step for `id`, put together from its parts. */
  lemma Assemble(s: State, s': State, pending: set<Id>, id: Id)
    requires forall j :: Accounted(s, j)
    requires Effect(s, s', id) && Accounted(s', id)
    requires Keyed(s') && Planned(s', pending) && Reserves(s') && Counters(s')
    ensures Inv(s', pending)
  {
    forall j ensures Accounted(s', j) {
      assert Accounted(s, j);
      if j != id {
        assert Untouched(s, s', j);
      }
    }
  }

  lemma EffectTrans(s: State, m: State, s': State, id: Id)
    requires Effect(s, m, id) && Effect(m, s', id)
    ensures Effect(s, s', id)
  {
    forall j | j != id ensures Untouched(s, s', j) {
      assert Untouched(s, m, j) && Untouched(m, s', j);
    }
  }

  lemma EmitEffect(s: State, id: Id, e: Event)
    requires Concerns(e, id)
    ensures Effect(s, Emit(s, e), id)
  {}

  lemma SetBalanceEffect(s: State, id: Id, k: Key, b: Balance)
    ensures Effect(s, SetBalance(s, k, b), id)
  {}

  /** No schedule is added, removed or moved. */
  ghost predicate SamePlaces(s: State, s': State) {
    && s'.schedules == s.schedules && s'.ownership == s.ownership
    && s'.execBlock == s.execBlock && s'.idsPerBlock == s.idsPerBlock
    && s'.remaining.Keys == s.remaining.Keys
    && s'.retries.Keys <= s.retries.Keys && s'.extraGas.Keys <= s.schedules.Keys
  }

  lemma AssembleInPlace(s: State, s': State, pending: set<Id>, id: Id)
    requires Inv(s, pending)
    requires Effect(s, s', id) && Accounted(s', id) && Reserves(s') && Counters(s')
    requires SamePlaces(s, s')
    ensures Inv(s', pending)
  {
    hide Reserves, Counters, Accounted;
    SamePlan(s, s', pending);
    Assemble(s, s', pending, id);
  }

  lemma NotedAccounted(s: State, id: Id, e: Event)
    requires Accounted(s, id) && (e == ExecutionStarted(id, s.now) || e == TradeFailed(id))
    requires id in s.schedules && id < s.nextId
    ensures Accounted(Emit(s, e), id)
  {}

  /** Recording that an attempt starts or fails changes no balance, plan or budget. */
  lemma NotedKeeps(s: State, pending: set<Id>, id: Id, e: Event)
    requires Inv(s, pending) && id in s.schedules
    requires e == ExecutionStarted(id, s.now) || e == TradeFailed(id)
    ensures Inv(Emit(s, e), pending) && Effect(s, Emit(s, e), id)
  {
    hide Planned, Reserves, Effect, HistoryOf;
    var s' := Emit(s, e);
    SameReserves(s, s');
    EmitEffect(s, id, e);
    assert Accounted(s, id);
    NotedAccounted(s, id, e);
    hide Accounted;
    AssembleInPlace(s, s', pending, id);
  }

  lemma GasEffect(s: State, id: Id)
    requires id in s.schedules
    ensures Effect(s, IncrementGas(s, id), id)
  {}

  lemma GasCounters(s: State, id: Id)
    requires id in s.schedules && Counters(s)
    ensures Counters(IncrementGas(s, id))
  {}

  lemma GasKeeps(s: State, pending: set<Id>, id: Id)
    requires Inv(s, pending) && id in s.schedules
    ensures Inv(IncrementGas(s, id), pending) && Effect(s, IncrementGas(s, id), id)
  {
    hide Planned, Reserves, Counters;
    var s' := IncrementGas(s, id);
    GasEffect(s, id);
    GasCounters(s, id);
    SameReserves(s, s');
    assert Accounted(s, id);
    AssembleInPlace(s, s', pending, id);
  }

  /* ---- planning again ---- */

  lemma PlacedEffect(s: State, id: Id, reason: Reason, requested: Block, b: Block)
    ensures Effect(s, PlacedAt(s, id, reason, requested, b), id)
  {}

  ghost predicate Live(s: State, id: Id) {
    id in s.schedules && id in s.remaining && id in s.execBlock && id < s.nextId
  }

  /** A bump or a regular replan moves the record and the plan together. */
  lemma PlacedAccounted(s: State, id: Id, reason: Reason, requested: Block, b: Block)
    requires Live(s, id) && Accounted(s, id) && s.execBlock[id] == s.now < b
    requires b <= requested + MAX_DELAY && (reason.Bumped? ==> requested <= s.now + 1)
    requires reason.Bumped? || (reason.NextPeriod? && RetriesOf(s, id) == 0)
    ensures Accounted(PlacedAt(s, id, reason, requested, b), id)
  {}

  lemma PlanKeeps(s: State, pending: set<Id>, id: Id, reason: Reason, requested: Block, draws: seq<nat>)
    requires Inv(s, pending) && id in pending && requested <= U32_MAX && (reason.Bumped? ==> requested <= s.now + 1)
    requires reason.Bumped? || (reason.NextPeriod? && RetriesOf(s, id) == 0)
    requires Plan(s, id, reason, requested, draws).Some?
    ensures Inv(Plan(s, id, reason, requested, draws).value, pending - {id})
    ensures Effect(s, Plan(s, id, reason, requested, draws).value, id)
  {
    hide Reserves, Effect, Accounted;
    FreeBlockIsNear(s.idsPerBlock, s.cfg.maxPerBlock, requested, draws);
    var b := FreeBlock(s.idsPerBlock, s.cfg.maxPerBlock, requested, draws, 0).value;
    var s' := PlacedAt(s, id, reason, requested, b);
    PlacedKeepsPlan(s, pending, id, reason, requested, b);
    PlacedEffect(s, id, reason, requested, b);
    SameReserves(s, s');
    assert Accounted(s, id);
    assert PlaceOk(s, pending, id);
    PlacedAccounted(s, id, reason, requested, b);
    hide Planned;
    Assemble(s, s', pending - {id}, id);
  }

  /** The counter and the plan after a retry, placed in block `b`. */
  function RetriedAt(s: State, id: Id, requested: Block, b: Block): State {
    PlacedAt(s.(retries := s.retries[id := RetriesOf(s, id) + 1]), id, Retried, requested, b)
  }

  lemma RetriedEffect(s: State, id: Id, requested: Block, b: Block)
    ensures Effect(s, RetriedAt(s, id, requested, b), id)
  {}

  /** One more failure doubles the wait, so the backoff sum grows to the next one. */
  lemma RetriedAccounted(s: State, id: Id, requested: Block, b: Block)
    requires Live(s, id) && Accounted(s, id) && s.execBlock[id] == s.now
    requires RetryBlock(s.now, RetriesOf(s, id)) == Some(requested) && requested <= b <= requested + MAX_DELAY
    ensures Accounted(RetriedAt(s, id, requested, b), id)
  {
    var k := RetriesOf(s, id);
    assert Pow2(k + 1) == 2 * Pow2(k);
    assert k == 0 ==> Pow2(k) == 1;
  }

  lemma RetriedPlan(s: State, pending: set<Id>, id: Id, requested: Block, b: Block)
    requires Planned(s, pending) && id in pending
    requires s.now < requested <= b <= U32_MAX && |IdsAt(s.idsPerBlock, b)| < s.cfg.maxPerBlock
    ensures Planned(RetriedAt(s, id, requested, b), pending - {id})
  {
    hide Planned;
    var s1 := s.(retries := s.retries[id := RetriesOf(s, id) + 1]);
    SamePlan(s, s1, pending);
    PlacedKeepsPlan(s1, pending, id, Retried, requested, b);
  }

  lemma RetriedCounters(s: State, id: Id, requested: Block, b: Block)
    requires Keyed(s) && Counters(s) && id in s.schedules
    requires RetriesOf(s, id) < MaxRetries(s.cfg, s.schedules[id])
    ensures Counters(RetriedAt(s, id, requested, b)) && Keyed(RetriedAt(s, id, requested, b))
  {}

  /** A retry raises the counter by one and plans the block the backoff law names. */
  lemma RetryKeeps(s: State, pending: set<Id>, id: Id, draws: seq<nat>)
    requires Inv(s, pending) && id in pending && Retry(s, id, draws).Some?
    ensures Inv(Retry(s, id, draws).value, pending - {id})
    ensures Effect(s, Retry(s, id, draws).value, id)
  {
    var requested := RetryBlock(s.now, RetriesOf(s, id)).value;
    FreeBlockIsNear(s.idsPerBlock, s.cfg.maxPerBlock, requested, draws);
    var b := FreeBlock(s.idsPerBlock, s.cfg.maxPerBlock, requested, draws, 0).value;
    var s' := RetriedAt(s, id, requested, b);
    RetriedPlan(s, pending, id, requested, b);
    RetriedEffect(s, id, requested, b);
    RetriedCounters(s, id, requested, b);
    SameReserves(s, s');
    assert Accounted(s, id);
    assert PlaceOk(s, pending, id);
    RetriedAccounted(s, id, requested, b);
    Assemble(s, s', pending - {id}, id);
  }

  /* ---- ending ---- */

  lemma RefundEffect(s: State, id: Id)
    requires id in s.schedules
    ensures Effect(s, Refund(s, id), id)
  {
    if id in s.remaining {
      var k := s.schedules[id].SpentFrom();
      var b := Unreserve(BalanceAt(s, k), s.remaining[id]);
      SetBalanceEffect(s, id, k, b);
      EmitEffect(SetBalance(s, k, b), id, Unreserved(id, Min(s.remaining[id], BalanceAt(s, k).dca)));
      EffectTrans(s, SetBalance(s, k, b), Refund(s, id), id);
    }
  }

  lemma ForgetEffect(s: State, id: Id)
    requires id in s.schedules
    ensures Effect(s, Forget(s, id), id)
  {}

  lemma EndedEffect(s: State, id: Id, e: Event)
    requires id in s.schedules && Concerns(e, id)
    ensures Effect(s, End(s, id, e), id)
  {
    RefundEffect(s, id);
    ForgetEffect(Refund(s, id), id);
    EffectTrans(s, Refund(s, id), Forget(Refund(s, id), id), id);
    EmitEffect(Forget(Refund(s, id), id), id, e);
    EffectTrans(s, Forget(Refund(s, id), id), End(s, id, e), id);
  }

  lemma EndShape(s: State, id: Id, e: Event)
    requires id in s.schedules && id in s.remaining
    requires s.remaining[id] <= BalanceAt(s, s.schedules[id].SpentFrom()).dca
    ensures var s' := End(s, id, e);
            id !in s'.schedules && s'.nextId == s.nextId && s'.log == Then(Then(s.log, Unreserved(id, s.remaining[id])), e)
  {}

  lemma EndedHistory(log: Log, id: Id, amount: nat, e: Event)
    requires e == Terminated(id) || e == Completed(id)
    ensures var h := HistoryOf(log, id);
            HistoryOf(Then(Then(log, Unreserved(id, amount)), e), id) == h.(refunded := h.refunded + amount)
  {
    var refunded := Then(log, Unreserved(id, amount));
    assert HistoryOf(refunded, id) == Replay(HistoryOf(log, id), id, refunded.last);
  }

  /** The refund is the whole remaining budget, so the record closes with nothing missing. */
  lemma EndedAccounted(s: State, id: Id, e: Event)
    requires Live(s, id) && Accounted(s, id)
    requires s.remaining[id] <= BalanceAt(s, s.schedules[id].SpentFrom()).dca
    requires e == Terminated(id) || e == Completed(id)
    ensures Accounted(End(s, id, e), id)
  {
    hide End, HistoryOf, Backoff, BalanceAt;
    EndShape(s, id, e);
    EndedHistory(s.log, id, s.remaining[id], e);
  }

  lemma EndedKeyed(s: State, id: Id, e: Event)
    requires Keyed(s) && Counters(s) && id in s.schedules
    ensures Keyed(End(s, id, e)) && Counters(End(s, id, e))
  {}

  lemma EndedPlan(s: State, pending: set<Id>, id: Id, e: Event)
    requires Keyed(s) && Planned(s, pending) && id in pending
    ensures Planned(End(s, id, e), pending - {id})
  {
    var s1 := Refund(s, id);
    SamePlan(s, s1, pending);
    ForgetKeepsPlan(s1, pending, id);
    SamePlan(Forget(s1, id), End(s, id, e), pending - {id});
  }

  /** Ending a schedule returns its whole remaining budget and takes it out of every map. */
  lemma EndKeeps(s: State, pending: set<Id>, id: Id, e: Event)
    requires Inv(s, pending) && id in pending
    requires e == Terminated(id) || e == Completed(id)
    ensures Inv(End(s, id, e), pending - {id}) && Effect(s, End(s, id, e), id)
  {
    EndReserves(s, id, e);
    EndedPlan(s, pending, id, e);
    EndedEffect(s, id, e);
    EndedKeyed(s, id, e);
    assert Accounted(s, id);
    ReserveCoversBudget(s, id);
    EndedAccounted(s, id, e);
    Assemble(s, End(s, id, e), pending - {id}, id);
  }

  /* ---- charging and trading ---- */

  lemma RemainingEffect(s: State, id: Id, left: nat)
    requires id in s.remaining
    ensures Effect(s, s.(remaining := s.remaining[id := left]), id)
  {}

  lemma UnallocateEffect(s: State, id: Id, amount: nat)
    requires id in s.schedules && Unallocate(s, id, amount).Some?
    ensures Effect(s, Unallocate(s, id, amount).value, id)
  {
    if !s.schedules[id].Rolling() {
      var k := s.schedules[id].SpentFrom();
      var s1 := s.(remaining := s.remaining[id := s.remaining[id] - amount]);
      RemainingEffect(s, id, s.remaining[id] - amount);
      SetBalanceEffect(s1, id, k, Unreserve(BalanceAt(s, k), amount));
      EffectTrans(s, s1, Unallocate(s, id, amount).value, id);
    }
  }

  lemma UnallocateFrame(s: State, id: Id, amount: nat)
    requires id in s.schedules && Unallocate(s, id, amount).Some?
    ensures var s' := Unallocate(s, id, amount).value;
            s' == s.(remaining := s'.remaining, ledger := s'.ledger)
  {}

  /** Only free balances differ. */
  ghost predicate FreeMoves(before: map<Key, Balance>, after: map<Key, Balance>) {
    forall k :: At(after, k).dca == At(before, k).dca
  }

  lemma WithdrawIsFree(b: Balance, amount: nat)
    requires Withdraw(b, amount).Some?
    ensures Withdraw(b, amount).value.dca == b.dca
  {}

  lemma SetIsFree(ledger: map<Key, Balance>, k: Key, b: Balance)
    requires b.dca == At(ledger, k).dca
    ensures FreeMoves(ledger, ledger[k := b])
  {}

  lemma FreeMovesTrans(a: map<Key, Balance>, b: map<Key, Balance>, c: map<Key, Balance>)
    requires FreeMoves(a, b) && FreeMoves(b, c)
    ensures FreeMoves(a, c)
  {
    hide At;
    forall k ensures At(c, k).dca == At(a, k).dca {
      assert At(b, k).dca == At(a, k).dca;
    }
  }

  lemma MoveIsFree(ledger: map<Key, Balance>, from: Key, amount: nat, to: Option<Key>, credit: nat)
    requires Move(ledger, from, amount, to, credit).Some?
    ensures FreeMoves(ledger, Move(ledger, from, amount, to, credit).value)
  {
    WithdrawIsFree(At(ledger, from), amount);
    hide Withdraw, FreeMoves;
    var paid := Withdraw(At(ledger, from), amount).value;
    SetIsFree(ledger, from, paid);
    if to.Some? {
      var l := ledger[from := paid];
      var b := At(l, to.value).(free := At(l, to.value).free + credit);
      SetIsFree(l, to.value, b);
      FreeMovesTrans(ledger, l, l[to.value := b]);
    }
  }

  /** The schedule's budget reduced by `amount`, other balances as in `ledger`, and the event on record. */
  function SpentState(s: State, id: Id, amount: nat, ledger: map<Key, Balance>, e: Event, retries: map<Id, nat>): State
    requires id in s.schedules && Unallocate(s, id, amount).Some?
  {
    Unallocate(s, id, amount).value.(ledger := ledger, transientGas := 0, retries := retries, log := Then(s.log, e))
  }

  /** What a charged fee or an executed trade leaves. */
  ghost predicate Spent(s: State, s': State, id: Id, amount: nat, e: Event, retries: map<Id, nat>)
    requires id in s.schedules
  {
    && Unallocate(s, id, amount).Some?
    && s' == SpentState(s, id, amount, s'.ledger, e, retries)
    && FreeMoves(Unallocate(s, id, amount).value.ledger, s'.ledger)
  }

  lemma FeeSpent(s: State, id: Id, f: FeeInput)
    requires id in s.schedules && TakeFee(s, id, f).FeePaid?
    ensures Spent(s, TakeFee(s, id, f).state, id, f.budgeted.value, FeeTaken(id, f.budgeted.value, PaidOf(f)), s.retries)
  {
    var k := s.schedules[id].SpentFrom();
    GasIsNoBudget(s, id, f.budgeted.value);
    hide Unallocate;
    var s1 := Unallocate(WithGas(s, id), id, f.budgeted.value).value;
    MoveIsFree(s1.ledger, k, PaidOf(f), if f.sufficientAsset then Some((s.cfg.treasury, k.1)) else None, PaidOf(f));
    hide Move;
  }

  /** The gas lent for the run has no part in the budget. */
  lemma GasIsNoBudget(s: State, id: Id, amount: nat)
    requires id in s.schedules
    ensures Unallocate(WithGas(s, id), id, amount).Some? == Unallocate(s, id, amount).Some?
    ensures Unallocate(s, id, amount).Some? ==>
              && Unallocate(WithGas(s, id), id, amount).value == Unallocate(s, id, amount).value.(transientGas := GasOf(s, id))
              && Unallocate(s, id, amount).value.log == s.log && Unallocate(s, id, amount).value.retries == s.retries
  {
    hide Unreserve;
  }

  lemma TradeSpent(s: State, id: Id, t: TradeInput)
    requires id in s.schedules && ExecuteTrade(s, id, t).Traded?
    ensures var r := ExecuteTrade(s, id, t);
            Spent(s, Recorded(r.state, id, r.amountIn), id, r.amountIn, TradeExecuted(id, r.amountIn), s.retries - {id})
  {
    var amount := TradeAmount(s, id, t).amount;
    var sch := s.schedules[id];
    GasIsNoBudget(s, id, amount);
    hide Unallocate;
    var s1 := Unallocate(WithGas(s, id), id, amount).value;
    MoveIsFree(s1.ledger, sch.SpentFrom(), amount, Some((sch.owner, sch.order.assetOut)), t.amountOut);
    hide Move;
  }

  lemma SpentEffect(s: State, s': State, id: Id, amount: nat, e: Event, retries: map<Id, nat>)
    requires id in s.schedules && Spent(s, s', id, amount, e, retries) && Concerns(e, id)
    requires retries == s.retries || retries == s.retries - {id}
    ensures Effect(s, s', id)
  {
    var s1 := Unallocate(s, id, amount).value;
    UnallocateEffect(s, id, amount);
    assert s1.log == s.log;
    hide Unallocate;
    var s2 := s1.(ledger := s'.ledger, transientGas := 0, retries := retries);
    assert Effect(s1, s2, id);
    EmitEffect(s2, id, e);
    EffectTrans(s, s1, s2, id);
    EffectTrans(s, s2, s', id);
  }

  ghost predicate BudgetSpent(s: State, s': State, id: Id, amount: nat)
    requires Live(s, id)
  {
    && s'.schedules == s.schedules && s'.nextId == s.nextId && s'.execBlock == s.execBlock
    && id in s'.remaining
    && s.remaining[id] == s'.remaining[id] + (if s.schedules[id].Rolling() then 0 else amount)
  }

  lemma ChargedAccounted(s: State, s': State, id: Id, amount: nat, paid: nat)
    requires Live(s, id) && Accounted(s, id) && BudgetSpent(s, s', id, amount)
    requires paid <= amount && s'.log == Then(s.log, FeeTaken(id, amount, paid)) && RetriesOf(s', id) == RetriesOf(s, id)
    ensures Accounted(s', id)
  {}

  lemma TradedAccounted(s: State, s': State, id: Id, amount: nat)
    requires Live(s, id) && Accounted(s, id) && BudgetSpent(s, s', id, amount)
    requires s'.log == Then(s.log, TradeExecuted(id, amount)) && RetriesOf(s', id) == 0
    ensures Accounted(s', id)
  {}

  lemma SpentAccounted(s: State, s': State, id: Id, amount: nat, e: Event, retries: map<Id, nat>)
    requires Live(s, id) && Accounted(s, id) && Spent(s, s', id, amount, e, retries)
    requires (e.FeeTaken? && e == FeeTaken(id, amount, e.paid) && e.paid <= amount && retries == s.retries) || (e == TradeExecuted(id, amount) && retries == s.retries - {id})
    ensures Accounted(s', id)
  {
    assert BudgetSpent(s, s', id, amount);
    if e.FeeTaken? {
      ChargedAccounted(s, s', id, amount, e.paid);
    } else {
      TradedAccounted(s, s', id, amount);
    }
  }

  lemma SpentPlaces(s: State, s': State, id: Id, amount: nat, e: Event, retries: map<Id, nat>)
    requires Keyed(s) && id in s.schedules && Spent(s, s', id, amount, e, retries)
    requires retries == s.retries || retries == s.retries - {id}
    ensures SamePlaces(s, s')
  {}

  lemma SpentCounters(s: State, s': State, id: Id, amount: nat, e: Event, retries: map<Id, nat>)
    requires Counters(s) && id in s.schedules && Spent(s, s', id, amount, e, retries)
    requires retries == s.retries || retries == s.retries - {id}
    ensures Counters(s')
  {}

  lemma SpentReserves(s: State, s': State, id: Id, amount: nat, e: Event, retries: map<Id, nat>)
    requires Keyed(s) && Reserves(s) && id in s.schedules && Spent(s, s', id, amount, e, retries)
    ensures Reserves(s')
  {
    hide Unallocate;
    UnallocateReserves(s, id, amount);
    SameReserves(Unallocate(s, id, amount).value, s');
  }

  /** Charging a fee or executing a trade draws on the schedule's own reserve and on nothing else reserved. */
  lemma SpentKeeps(s: State, s': State, pending: set<Id>, id: Id, amount: nat, e: Event, retries: map<Id, nat>)
    requires Inv(s, pending) && id in s.schedules && Spent(s, s', id, amount, e, retries)
    requires (e.FeeTaken? && e == FeeTaken(id, amount, e.paid) && e.paid <= amount && retries == s.retries) || (e == TradeExecuted(id, amount) && retries == s.retries - {id})
    ensures Inv(s', pending) && Effect(s, s', id)
  {
    SpentReserves(s, s', id, amount, e, retries);
    SpentCounters(s, s', id, amount, e, retries);
    SpentEffect(s, s', id, amount, e, retries);
    assert Accounted(s, id);
    SpentAccounted(s, s', id, amount, e, retries);
    SpentPlaces(s, s', id, amount, e, retries);
    AssembleInPlace(s, s', pending, id);
  }
}
