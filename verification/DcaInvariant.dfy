/** What holds in every reachable state of the DCA pallet, and the proofs for its building blocks. */
module DcaInvariant {
  import opened Common
  import opened Ledger
  import opened DcaModel

  /* ---- replaying the log ---- */

  /**
   * One schedule's life as its events tell it. `idle` counts the successful attempts that
   * cost nothing, neither fee nor trade. `failures` counts the retried failures since
   * the last success, `firstFailure` is the block of the first of them, and `slack` the
   * blocks added since then: by `displaced` retries that found their block full and by
   * `bumped` random bumps. `fees` is drawn from the budget, `paid` of it leaves the owner.
   */
  datatype History = History(
    total: nat, reserve: nat, sold: nat, fees: nat, paid: nat, refunded: nat,
    started: nat, bumps: nat, lastFee: nat, idle: nat,
    failures: nat, firstFailure: Block, slack: int, displaced: nat, bumped: nat)

  const BLANK := History(0, 0, 0, 0, 0, 0, 0, 0, 0, 0, 0, 0, 0, 0, 0)

  function HistoryOf(log: Log, id: Id): History {
    match log
    case NoEvents => BLANK
    case Then(earlier, e) => Replay(HistoryOf(earlier, id), id, e)
  }

  predicate Concerns(e: Event, id: Id) {
    !e.ReserveUnlocked? && e.id == id
  }

  function Replay(h: History, id: Id, e: Event): History {
    if !Concerns(e, id) then h
    else
      match e
      case Scheduled(_, total, reserve) => BLANK.(total := total, reserve := reserve)
      case ExecutionStarted(_, _) => h.(started := h.started + 1)
      case ExecutionPlanned(_, Bumped, at, _, block) => 
        h.(bumps := h.bumps + 1, bumped := h.bumped + 1, slack := h.slack + block - at)
      case ExecutionPlanned(_, Retried, at, requested, block) =>
        h.(failures := h.failures + 1,
           firstFailure := if h.failures == 0 then at else h.firstFailure,
           slack := (if h.failures == 0 then 0 else h.slack) + block - requested,
           displaced := (if h.failures == 0 then 0 else h.displaced) + (if block == requested then 0 else 1),
           bumped := if h.failures == 0 then 0 else h.bumped)
      case FeeTaken(_, drawn, paid) =>
        h.(fees := h.fees + drawn, paid := h.paid + paid, lastFee := drawn)
      case TradeExecuted(_, amountIn) =>
        h.(sold := h.sold + amountIn, failures := 0, idle := h.idle + (if h.lastFee == 0 && amountIn == 0 then 1 else 0))
      case Unreserved(_, amount) => h.(refunded := h.refunded + amount)
      case _ => h
  }

  /** What the schedule drew from its own reserve; a rolling schedule draws nothing. */
  function Drawn(h: History): nat {
    if h.total == 0 then 0 else h.sold + h.fees
  }

  /* ---- the invariant ---- */

  ghost predicate Keyed(s: State) {
    && s.remaining.Keys == s.schedules.Keys
    && s.execBlock.Keys == s.schedules.Keys
    && s.retries.Keys <= s.schedules.Keys
    && s.extraGas.Keys <= s.schedules.Keys
    && (forall id | id in s.schedules :: id < s.nextId && (s.schedules[id].owner, id) in s.ownership)
    && (forall o | o in s.ownership :: o.1 in s.schedules && s.schedules[o.1].owner == o.0)
  }

  ghost predicate NoDuplicates(ids: seq<Id>) {
    forall i, j | 0 <= i < j < |ids| :: ids[i] != ids[j]
  }

  /** The list of block `b` holds live, distinct, not pending schedules planned for `b`, within the limit. */
  ghost predicate ListOk(s: State, pending: set<Id>, b: Block) {
    var ids := IdsAt(s.idsPerBlock, b);
    && NoDuplicates(ids)
    && |ids| <= s.cfg.maxPerBlock
    && (b in s.idsPerBlock ==> ids != [])
    && (forall i | 0 <= i < |ids| :: ids[i] in s.execBlock && ids[i] !in pending && s.execBlock[ids[i]] == b)
  }

  /** A pending schedule is due now and in no list; any other is in the list of its own future block. */
  ghost predicate PlaceOk(s: State, pending: set<Id>, id: Id)
    requires id in s.execBlock
  {
    if id in pending then s.execBlock[id] == s.now
    else s.now < s.execBlock[id] <= U32_MAX && id in IdsAt(s.idsPerBlock, s.execBlock[id])
  }

  /** `pending` holds the schedules taken out for the current block and not attempted yet. */
  ghost predicate Planned(s: State, pending: set<Id>) {
    && s.now <= U32_MAX
    && pending <= s.execBlock.Keys
    && (forall id | id in s.execBlock :: PlaceOk(s, pending, id))
    && (forall b :: ListOk(s, pending, b))
  }

  /** The budgets still to be spent out of one (owner, asset) reserve. */
  ghost function Budgets(schedules: map<Id, Schedule>, remaining: map<Id, nat>, k: Key): map<Id, nat> {
    map id | id in remaining && id in schedules && schedules[id].SpentFrom() == k :: remaining[id]
  }

  ghost predicate Reserves(s: State) {
    forall k :: BalanceAt(s, k).dca == SumMap(Budgets(s.schedules, s.remaining, k))
  }

  ghost predicate Counters(s: State) {
    && s.transientGas == 0
    && (forall id | id in s.extraGas :: s.extraGas[id] <= MAX_EXTRA_GAS)
    && (forall id | id in s.schedules :: RetriesOf(s, id) <= MaxRetries(s.cfg, s.schedules[id]))
  }

  /**
   * Consecutive failures fix the planned block: the backoff sum from the first failure, plus the
   * slack, to which every displaced retry and every bump adds at least one block and at most
   * what the random delays allow.
   */
  ghost predicate Backoff(h: History, block: Block) {
    h.failures > 0 ==>
      && block == h.firstFailure + RETRY_PERIOD * (Pow2(h.failures) - 1) + h.slack
      && h.displaced <= h.failures
      && h.displaced + h.bumped <= h.slack <= MAX_DELAY * h.displaced + (MAX_DELAY + 1) * h.bumped
  }

  ghost predicate Accounted(s: State, id: Id) {
    var h := HistoryOf(s.log, id);
    && h.paid <= h.fees
    && (s.nextId <= id ==> h == BLANK)
    && (id in s.schedules && id in s.remaining && id in s.execBlock ==>
          && h.total == s.schedules[id].total
          && (h.total != 0 ==> h.reserve == h.total)
          && h.refunded == 0
          && h.reserve == Drawn(h) + s.remaining[id]
          && h.failures == RetriesOf(s, id)
          && Backoff(h, s.execBlock[id]))
    && (id < s.nextId && id !in s.schedules ==> h.reserve == Drawn(h) + h.refunded)
  }

  ghost predicate Inv(s: State, pending: set<Id>) {
    && Keyed(s)
    && Planned(s, pending)
    && Reserves(s)
    && Counters(s)
    && (forall id :: Accounted(s, id))
  }

  /** Nothing stored or recorded about `j` differs. */
  ghost predicate Untouched(s: State, s': State, j: Id) {
    && (j in s.schedules <==> j in s'.schedules)
    && (j in s.schedules ==> s.schedules[j] == s'.schedules[j])
    && (j in s.remaining <==> j in s'.remaining)
    && (j in s.remaining ==> s.remaining[j] == s'.remaining[j])
    && (j in s.execBlock <==> j in s'.execBlock)
    && (j in s.execBlock ==> s.execBlock[j] == s'.execBlock[j])
    && RetriesOf(s, j) == RetriesOf(s', j)
    && GasOf(s, j) == GasOf(s', j)
    && HistoryOf(s.log, j) == HistoryOf(s'.log, j)
  }

  /** The effect of one building block on behalf of `id`. */
  ghost predicate Effect(s: State, s': State, id: Id) {
    && s'.now == s.now && s'.cfg == s.cfg && s'.nextId == s.nextId
    && (forall j | j != id :: Untouched(s, s', j))
  }

  /* ---- reserves ---- */

  lemma SameReserves(s: State, s': State)
    requires Reserves(s)
    requires s'.schedules == s.schedules && s'.remaining == s.remaining
    requires forall k :: BalanceAt(s', k).dca == BalanceAt(s, k).dca
    ensures Reserves(s')
  {}

  lemma UnallocateReserves(s: State, id: Id, amount: nat)
    requires Keyed(s) && Reserves(s) && id in s.schedules && Unallocate(s, id, amount).Some?
    ensures Reserves(Unallocate(s, id, amount).value)
  {
    hide SumMap;
    var s' := Unallocate(s, id, amount).value;
    var key := s.schedules[id].SpentFrom();
    if !s.schedules[id].Rolling() {
      forall k ensures BalanceAt(s', k).dca == SumMap(Budgets(s'.schedules, s'.remaining, k)) {
        var before := Budgets(s.schedules, s.remaining, k);
        if k == key {
          SumMapUpdate(before, id, s'.remaining[id]);
          assert Budgets(s'.schedules, s'.remaining, k) == before[id := s'.remaining[id]];
        } else {
          assert Budgets(s'.schedules, s'.remaining, k) == before;
        }
      }
    }
  }

  /** The reserve always covers what any of its schedules may still spend. */
  lemma ReserveCoversBudget(s: State, id: Id)
    requires Keyed(s) && Reserves(s) && id in s.schedules
    ensures s.remaining[id] <= BalanceAt(s, s.schedules[id].SpentFrom()).dca
  {
    var k := s.schedules[id].SpentFrom();
    SumMapSplit(Budgets(s.schedules, s.remaining, k), id);
  }

  lemma BudgetsRemove(schedules: map<Id, Schedule>, remaining: map<Id, nat>, id: Id, k: Key)
    requires id in schedules && id in remaining
    ensures SumMap(Budgets(schedules - {id}, remaining - {id}, k))
         == SumMap(Budgets(schedules, remaining, k)) - (if k == schedules[id].SpentFrom() then remaining[id] else 0)
  {
    var before := Budgets(schedules, remaining, k);
    if k == schedules[id].SpentFrom() {
      SumMapSplit(before, id);
      assert Budgets(schedules - {id}, remaining - {id}, k) == before - {id};
    } else {
      assert Budgets(schedules - {id}, remaining - {id}, k) == before;
    }
  }

  lemma EndReserves(s: State, id: Id, e: Event)
    requires Keyed(s) && Reserves(s) && id in s.schedules
    ensures Reserves(End(s, id, e))
  {
    hide SumMap, Budgets;
    var s' := End(s, id, e);
    ReserveCoversBudget(s, id);
    forall k ensures BalanceAt(s', k).dca == SumMap(Budgets(s'.schedules, s'.remaining, k)) {
      BudgetsRemove(s.schedules, s.remaining, id, k);
    }
  }

  lemma BudgetsInsert(schedules: map<Id, Schedule>, remaining: map<Id, nat>, id: Id, sch: Schedule, reserve: nat, k: Key)
    requires id !in schedules
    ensures SumMap(Budgets(schedules[id := sch], remaining[id := reserve], k))
         == SumMap(Budgets(schedules, remaining, k)) + (if k == sch.SpentFrom() then reserve else 0)
  {
    var before := Budgets(schedules, remaining, k);
    if k == sch.SpentFrom() {
      SumMapUpdate(before, id, reserve);
      assert Budgets(schedules[id := sch], remaining[id := reserve], k) == before[id := reserve];
    } else {
      assert Budgets(schedules[id := sch], remaining[id := reserve], k) == before;
    }
  }

  lemma InsertReserves(s: State, sch: Schedule, reserve: nat, b: Balance)
    requires Keyed(s) && Reserves(s) && Reserve(BalanceAt(s, sch.SpentFrom()), reserve) == Some(b)
    ensures Reserves(SetBalance(Insert(s, sch, reserve), sch.SpentFrom(), b))
  {
    var s' := SetBalance(Insert(s, sch, reserve), sch.SpentFrom(), b);
    forall k ensures BalanceAt(s', k).dca == SumMap(Budgets(s'.schedules, s'.remaining, k)) {
      BudgetsInsert(s.schedules, s.remaining, s.nextId, sch, reserve, k);
    }
  }

  /* ---- planning ---- */

  lemma {:induction false} Pow2Step(m: nat, n: nat)
    requires m <= n
    ensures Pow2(m) + n - m <= Pow2(n)
  {
    if m < n {
      Pow2Step(m, n - 1);
    }
  }

  /** The blocks the random delays from the `i`-th probe on can add at most. */
  function Reach(i: nat): int {
    Pow2(RESCHEDULING_ATTEMPTS + 1) - Pow2(i + 1) - (RESCHEDULING_ATTEMPTS - i)
  }

  lemma {:induction false} FreeBlockWithin(lists: map<Block, seq<Id>>, maxPerBlock: nat, block: Block, draws: seq<nat>, i: nat)
    requires block <= U32_MAX
    ensures var r := FreeBlock(lists, maxPerBlock, block, draws, i);
            r.Some? ==> i <= RESCHEDULING_ATTEMPTS && block <= r.value <= block + Reach(i)
    decreases RESCHEDULING_ATTEMPTS + 1 - i
  {
    if i <= RESCHEDULING_ATTEMPTS && |IdsAt(lists, block)| >= maxPerBlock {
      assert Pow2(i + 2) == 2 * Pow2(i + 1) && Pow2(i + 1) == 2 * Pow2(i);
      FreeBlockWithin(lists, maxPerBlock, SatAdd(block, Delay(draws, i), U32_MAX), draws, i + 1);
    } else if i <= RESCHEDULING_ATTEMPTS {
      Pow2Step(i + 1, RESCHEDULING_ATTEMPTS + 1);
    }
  }

  lemma FullReach()
    ensures Reach(0) == MAX_DELAY
  {
    assert Pow2(5) == 32;
    assert Pow2(8) == 256;
    assert Pow2(11) == 2048;
  }

  /** A plan lands in its requested block or at most MAX_DELAY blocks later, wherever there is room. */
  lemma FreeBlockIsNear(lists: map<Block, seq<Id>>, maxPerBlock: nat, block: Block, draws: seq<nat>)
    requires block <= U32_MAX
    ensures var r := FreeBlock(lists, maxPerBlock, block, draws, 0);
            && (r.Some? ==> block <= r.value <= block + MAX_DELAY && r.value <= U32_MAX && |IdsAt(lists, r.value)| < maxPerBlock)
            && (|IdsAt(lists, block)| < maxPerBlock ==> r == Some(block))
  {
    FreeBlockWithin(lists, maxPerBlock, block, draws, 0);
    FreeBlockFits(lists, maxPerBlock, block, draws, 0);
    FullReach();
  }

  lemma {:induction false} FreeBlockFits(lists: map<Block, seq<Id>>, maxPerBlock: nat, block: Block, draws: seq<nat>, i: nat)
    requires block <= U32_MAX
    ensures var r := FreeBlock(lists, maxPerBlock, block, draws, i);
            r.Some? ==> block <= r.value <= U32_MAX && |IdsAt(lists, r.value)| < maxPerBlock
    decreases RESCHEDULING_ATTEMPTS + 1 - i
  {
    if i <= RESCHEDULING_ATTEMPTS && |IdsAt(lists, block)| >= maxPerBlock {
      FreeBlockFits(lists, maxPerBlock, SatAdd(block, Delay(draws, i), U32_MAX), draws, i + 1);
    }
  }

  lemma PlacedKeepsPlan(s: State, pending: set<Id>, id: Id, reason: Reason, requested: Block, b: Block)
    requires Planned(s, pending) && (id in pending || id !in s.execBlock)
    requires s.now < b <= U32_MAX && |IdsAt(s.idsPerBlock, b)| < s.cfg.maxPerBlock
    ensures Planned(PlacedAt(s, id, reason, requested, b), pending - {id})
  {
    var s' := PlacedAt(s, id, reason, requested, b);
    assert ListOk(s, pending, b);
    forall i | 0 <= i < |IdsAt(s.idsPerBlock, b)| ensures IdsAt(s.idsPerBlock, b)[i] != id {}
    forall c ensures ListOk(s', pending - {id}, c) {
      assert ListOk(s, pending, c);
      assert c != b ==> IdsAt(s'.idsPerBlock, c) == IdsAt(s.idsPerBlock, c);
    }
    forall j | j in s'.execBlock ensures PlaceOk(s', pending - {id}, j) {
      assert j == id ==> IdsAt(s'.idsPerBlock, b)[|IdsAt(s.idsPerBlock, b)|] == id;
      if j != id {
        assert PlaceOk(s, pending, j);
      }
    }
  }

  lemma ForgetKeepsPlan(s: State, pending: set<Id>, id: Id)
    requires Keyed(s) && Planned(s, pending) && id in pending
    ensures Planned(Forget(s, id), pending - {id})
  {
    var s' := Forget(s, id);
    forall b ensures ListOk(s', pending - {id}, b) {
      assert ListOk(s, pending, b);
    }
    forall j | j in s'.execBlock ensures PlaceOk(s', pending - {id}, j) {
      assert PlaceOk(s, pending, j);
    }
  }

  /** Planned depends on the clock, the plan and the limit only. */
  lemma SamePlan(s: State, s': State, pending: set<Id>)
    requires Planned(s, pending)
    requires s'.now == s.now && s'.cfg == s.cfg && s'.execBlock == s.execBlock && s'.idsPerBlock == s.idsPerBlock
    ensures Planned(s', pending)
  {
    forall b ensures ListOk(s', pending, b) {
      assert ListOk(s, pending, b);
    }
    forall id | id in s'.execBlock ensures PlaceOk(s', pending, id) {
      assert PlaceOk(s, pending, id);
    }
  }
}
