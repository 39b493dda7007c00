/** Who may create and terminate schedules, and when the calls succeed. */
module DcaCalls {
  import opened Common
  import opened Ledger
  import opened DcaModel
  import opened DcaInvariant
  import opened DcaSteps
  import opened DcaAttempt
  import opened DcaRuns
  import opened DcaTheorems
  import opened DcaOutcomes
  import opened DcaRoundTrip

  /* ---- terminate ---- */

  lemma ListedIffPlanned(s: State, id: Id, b: Block)
    requires Keyed(s) && Planned(s, {}) && id in s.schedules
    ensures id in s.execBlock && (id in IdsAt(s.idsPerBlock, b) <==> s.execBlock[id] == b)
  {
    assert PlaceOk(s, {}, id);
    assert ListOk(s, {}, b);
  }

  /**
   * In every reachable state a schedule is terminated exactly if it is live, the caller is its
   * owner or the authority, and the block, if one is named, is the one it waits for. An outsider
   * is refused as such; a refusal changes nothing.
   */
  lemma TerminateIff(s: State, who: Account, authority: bool, id: Id, at: Option<Block>)
    requires Inv(s, {})
    ensures var r := TerminateCall(s, who, authority, id, at);
            && (r.Ok? <==>
                  && id in s.schedules && (authority || who == s.schedules[id].owner)
                  && (at.Some? ==> id in s.execBlock && s.execBlock[id] == at.value))
            && (id in s.schedules && !authority && who != s.schedules[id].owner ==> r == Err(Forbidden))
            && (r.Ok? ==> id !in r.state.schedules && forall j | j != id :: Untouched(Unplan(s, id, s.execBlock[id]), r.state, j))
  {
    hide Planned, Reserves, Counters, Accounted, Terminate, Unplan, Untouched;
    if id in s.schedules {
      ListedIffPlanned(s, id, if at.Some? then at.value else s.execBlock[id]);
      UnplanLive(s, id, s.execBlock[id]);
      TerminatedAlone(Unplan(s, id, s.execBlock[id]), id);
    }
  }

  lemma UnplanLive(s: State, id: Id, b: Block)
    ensures Unplan(s, id, b).schedules == s.schedules
  {}

  lemma TerminatedAlone(s: State, id: Id)
    requires id in s.schedules
    ensures id !in Terminate(s, id).schedules && forall j | j != id :: Untouched(s, Terminate(s, id), j)
  {
    EndTerms(s, id, Terminated(id));
    EndedEffect(s, id, Terminated(id));
    hide End, Untouched;
  }

  /* ---- how schedules leave ---- */

  lemma {:induction false} UnlistedStays(s: State, order: seq<Id>, ins: seq<Inputs>, j: Id)
    requires |order| == |ins| && NoDuplicates(order) && Inv(s, IdSet(order)) && j !in order
    ensures j in Attempts(s, order, ins).schedules <==> j in s.schedules
    decreases |order|
  {
    hide Attempt, Inv, Untouched;
    if order != [] {
      var s1 := Attempt(s, order[0], ins[0]);
      IdSetStep(order);
      AttemptSettles(s, IdSet(order), order[0], ins[0]);
      assert j != order[0];
      assert Untouched(s, s1, j);
      SameLife(s, s1, j);
      UnlistedStays(s1, order[1..], ins[1..], j);
    }
  }

  lemma SameLife(s: State, s': State, j: Id)
    requires Untouched(s, s', j)
    ensures j in s'.schedules <==> j in s.schedules
  {}

  lemma BlockLeavers(s: State, order: seq<Id>, ins: seq<Inputs>, j: Id)
    requires Inv(s, {}) && s.now < U32_MAX && Shuffles(s, order) && |order| == |ins|
    requires j in s.schedules && j !in OnInitialize(s, order, ins).schedules
    ensures j in s.execBlock && s.execBlock[j] == s.now + 1
  {
    hide Attempts, Planned, Reserves, Counters, Accounted;
    BlockStart(s, order);
    if j !in order {
      UnlistedStays(TakeBlock(s), order, ins, j);
    }
    assert j in multiset(order);
    DueCount(s, j);
  }

  lemma CreateKeepsLive(s: State, who: Account, sch: Schedule, start: Option<Block>, c: CallInput, j: Id)
    requires ScheduleCall(s, who, sch, start, c).Ok? && j in s.schedules
    ensures j in ScheduleCall(s, who, sch, start, c).state.schedules
  {
    hide ScheduleCall;
    var reserve, balance, requested, b := ScheduleShape(s, who, sch, start, c);
  }

  /**
   * On every run a schedule leaves in two ways only: in a block it was due in, or terminated by its
   * owner or the authority naming it.
   */
  lemma SchedulesLeaveTwoWays(states: seq<State>, actions: seq<Action>, n: nat, j: Id)
    requires IsRun(states, actions) && Initial(states[0]) && n < |actions|
    requires j in states[n].schedules && j !in states[n + 1].schedules
    ensures match actions[n]
            case NewBlock(_, _) => j in states[n].execBlock && states[n].execBlock[j] == states[n].now + 1
            case Cancel(who, authority, id, _) => id == j && (authority || who == states[n].schedules[j].owner)
            case _ => false
  {
    RunKeeps(states, actions, n);
    var s := states[n];
    hide Inv, Initial, ScheduleCall, TerminateCall, OnInitialize, UnlockCall;
    match actions[n]
    case NewBlock(order, ins) => BlockLeavers(s, order, ins, j);
    case Create(who, sch, start, c) =>
      if ScheduleCall(s, who, sch, start, c).Ok? {
        CreateKeepsLive(s, who, sch, start, c, j);
      }
    case Cancel(who, authority, id, at) =>
      TerminateIff(s, who, authority, id, at);
      if TerminateCall(s, who, authority, id, at).Ok? && j != id {
        assert Untouched(Unplan(s, id, s.execBlock[id]), TerminateCall(s, who, authority, id, at).state, j);
        UnplanLive(s, id, s.execBlock[id]);
      }
    case Unlock(who, asset) => UnlockFindsNothing(s, {}, who, asset);
    case Elsewhere(k, free, other, frozen) =>
  }

  /* ---- schedule ---- */

  /** Prices known, terms within the limits, one trade worth twenty fees, and a budget worth the minimum and two trades. */
  predicate Acceptable(cfg: Config, sch: Schedule, c: CallInput) {
    && Priced(sch, c)
    && sch.period >= cfg.minimalPeriod
    && (sch.stabilityThreshold.Some? ==> sch.stabilityThreshold.value <= cfg.maxThreshold)
    && TradeCost(sch, c) >= Max(Min(20 * c.fee.value, U128_MAX), cfg.minimumTrade)
    && Budget(sch, c) >= Max(c.minBudget.value, TwoTrades(sch, c))
  }

  /** What is reserved: the total of a fixed budget, two trades with their fees for a rolling one. */
  function Budget(sch: Schedule, c: CallInput): nat
    requires Priced(sch, c)
  {
    if sch.Rolling() then TwoTrades(sch, c) else sch.total
  }

  lemma ReserveIsBudget(cfg: Config, sch: Schedule, c: CallInput)
    ensures ReserveFor(cfg, sch, c).1.None? <==> Acceptable(cfg, sch, c)
    ensures Acceptable(cfg, sch, c) ==> ReserveFor(cfg, sch, c).0 == Budget(sch, c)
  {
    AcceptableIff(cfg, sch, c);
    hide ReserveFor;
  }

  /**
   * In every reachable state a schedule is created exactly if its owner calls, the order is
   * acceptable at the prices of the moment, an id is left, the owner can reserve the budget without
   * going below the lock, and a block is found; it then waits with that budget.
   */
  lemma ScheduleIff(s: State, who: Account, sch: Schedule, start: Option<Block>, c: CallInput)
    requires s.now <= U32_MAX && StartOk(start)
    ensures var r, b := ScheduleCall(s, who, sch, start, c), BalanceAt(s, sch.SpentFrom());
            && (r.Ok? <==>
                  && who == sch.owner && Acceptable(s.cfg, sch, c) && s.nextId < U32_MAX
                  && b.frozen + Budget(sch, c) <= b.free
                  && FirstBlock(s.now, start).Some? && s.now < FirstBlock(s.now, start).value
                  && FreeBlock(s.idsPerBlock, s.cfg.maxPerBlock, FirstBlock(s.now, start).value, c.draws, 0).Some?)
            && (r.Ok? ==> s.nextId in r.state.remaining && r.state.remaining[s.nextId] == Budget(sch, c))
  {
    ReserveIsBudget(s.cfg, sch, c);
    hide ReserveFor, Acceptable, FreeBlock, FirstBlock, TwoTrades;
  }
}
