/** How fast deposits can reach free balances, over every run. */
module FuseRate {
  import opened Common
  import opened FuseModel
  import opened FuseLaws

  predicate Deposits(a: Action) {
    a.DoDeposit? || a.DoMint?
  }

  predicate Governance(a: Action) {
    a.DoForceLift? || a.DoLockdown?
  }

  predicate Ungoverned(actions: seq<Action>) {
    forall i :: 0 <= i < |actions| ==> !Governance(actions[i])
  }

  /** What a deposit or mint added to free balances over all accounts. */
  ghost function Freed(c: Config, s: State, a: Action): int {
    if Deposits(a) then SumMap(Step(c, s, a).free) - SumMap(s.free) else 0
  }

  /** What a burn or withdrawal took out of the issuance. */
  function Burnt(c: Config, s: State, a: Action): int {
    if a.DoBurn? || a.DoWithdraw? then s.issuance - Step(c, s, a).issuance else 0
  }

  /** The step opens a new period: a first or late deposit, or a lifted lockdown. */
  predicate Resets(c: Config, s: State, a: Action) {
    && Perform(c, s, a).Ok?
    && (a.DoForceLift? ||
        (Deposits(a) && a.amount > 0 && !PhaseOf(c, s).LockdownActive? && !PhaseOf(c, s).WithinPeriod?))
  }

  ghost function TotalFreed(c: Config, s: State, actions: seq<Action>): int
    decreases |actions|
  {
    if actions == [] then 0
    else Freed(c, s, actions[0]) + TotalFreed(c, Step(c, s, actions[0]), actions[1..])
  }

  function TotalBurnt(c: Config, s: State, actions: seq<Action>): int
    decreases |actions|
  {
    if actions == [] then 0
    else Burnt(c, s, actions[0]) + TotalBurnt(c, Step(c, s, actions[0]), actions[1..])
  }

  function ResetCount(c: Config, s: State, actions: seq<Action>): nat
    decreases |actions|
  {
    if actions == [] then 0
    else (if Resets(c, s, actions[0]) then 1 else 0) + ResetCount(c, Step(c, s, actions[0]), actions[1..])
  }

  /** What the open period still lets through; nothing when no period is open. */
  function Room(c: Config, s: State): nat
    requires Watched(c)
  {
    if PhaseOf(c, s).WithinPeriod? then Max(0, Headroom(c, s)) else 0
  }

  /* ---- the bound by periods ---- */

  lemma LockEffect(c: Config, s: State, who: Account, amount: nat)
    requires Lock(c, s, who, amount).Ok?
    ensures var s' := Lock(c, s, who, amount).state;
            && SumMap(s'.free) == SumMap(s.free) - amount
            && s'.issuance == s.issuance && s'.now == s.now && s'.lockdown == s.lockdown
  {
    SetSum(s.free, who, Of(s.free, who) - amount);
  }

  /** What the hook does to the free sum and the lockdown, for a deposit of more than zero into any state. */
  lemma HookEffect(c: Config, s: State, who: Account, amount: nat)
    requires Watched(c) && amount > 0 && s.issuance + amount <= U128_MAX
    requires OnDeposit(c, Credited(s, who, amount), who, amount).Ok?
    ensures var s1 := Credited(s, who, amount);
            var s' := OnDeposit(c, s1, who, amount).state;
            && SumMap(s'.free) == SumMap(s1.free) - Max(0, amount - Headroom(c, s))
            && s'.issuance == s1.issuance && s'.now == s.now && s'.lockdown == AfterDeposit(c, s, amount)
  {
    hide Lock, SumMap;
    var s1, limit := Credited(s, who, amount), c.limit.value;
    match PhaseOf(c, s1)
    case LockdownActive => LockEffect(c, s1, who, amount);
    case WithinPeriod(baseline) =>
      if SatSub(s1.issuance, baseline) > limit {
        LockEffect(c, s1, who, SatSub(s1.issuance, SatAdd(baseline, limit, U128_MAX)));
      }
    case _ =>
      if amount > limit {
        LockEffect(c, s1, who, SatSub(amount, limit));
      }
  }

  /** A deposit frees what the headroom allows; a negative headroom takes from the depositor. */
  lemma DepositEffect(c: Config, s: State, who: Account, amount: nat)
    requires Watched(c) && amount > 0 && Deposit(c, s, who, amount).Ok?
    ensures var s' := Deposit(c, s, who, amount).state;
            && SumMap(s'.free) - SumMap(s.free) == Min(amount, Headroom(c, s))
            && s'.issuance == s.issuance + amount && s'.now == s.now && s'.lockdown == AfterDeposit(c, s, amount)
  {
    hide OnDeposit, SumMap;
    HookEffect(c, s, who, amount);
    SetSum(s.free, who, Of(s.free, who) + amount);
  }

  lemma DepositPotential(c: Config, s: State, who: Account, amount: nat)
    requires Watched(c) && amount > 0 && Deposit(c, s, who, amount).Ok?
    ensures var s' := Deposit(c, s, who, amount).state;
            SumMap(s'.free) - SumMap(s.free) + Room(c, s') <=
            Room(c, s) + if PhaseOf(c, s).LockdownActive? || PhaseOf(c, s).WithinPeriod? then 0 else c.limit.value
  {
    hide Deposit, SumMap;
    DepositEffect(c, s, who, amount);
  }

  /** No step frees more than it takes from the room, burns, or opens a period for. */
  lemma StepPotential(c: Config, s: State, a: Action)
    requires Watched(c)
    ensures Freed(c, s, a) + Room(c, Step(c, s, a)) <=
            Room(c, s) + Burnt(c, s, a) + if Resets(c, s, a) then c.limit.value else 0
  {
    hide Deposit, SumMap;
    if Perform(c, s, a).Ok? && Deposits(a) {
      if a.amount > 0 {
        DepositPotential(c, s, a.who, a.amount);
      } else {
        ZeroDeposit(c, s, a.who);
      }
    }
  }

  /**
   * Over every run, governance calls included, deposits put into free balances no more than
   * what the open period allowed, what was burnt, and one limit for each period opened.
   */
  lemma {:induction false} FreedWithinPeriods(c: Config, s: State, actions: seq<Action>)
    requires Watched(c)
    ensures TotalFreed(c, s, actions) + Room(c, Run(c, s, actions)) <=
            Room(c, s) + TotalBurnt(c, s, actions) + Times(ResetCount(c, s, actions), c.limit.value)
    decreases |actions|
  {
    hide Step, Freed, Burnt, Resets, Room;
    if actions != [] {
      StepPotential(c, s, actions[0]);
      FreedWithinPeriods(c, Step(c, s, actions[0]), actions[1..]);
    }
  }

  /* ---- the bound by time ---- */

  /** The earliest block in which a deposit could open a new period. */
  function NextReset(c: Config, s: State): Block {
    match s.lockdown
    case Unset => s.now
    case Locked(until) => Max(s.now, until)
    case Unlocked(resetAt, _) => Max(s.now, SatAdd(resetAt, c.period, U32_MAX))
  }

  lemma NextResetIsAhead(c: Config, s: State)
    ensures s.now <= NextReset(c, s)
  {}

  /** A period began in the past. */
  predicate Dated(s: State) {
    s.lockdown.Unlocked? ==> s.lockdown.resetAt <= s.now
  }

  lemma StepDated(c: Config, s: State, a: Action)
    requires Watched(c) && Dated(s)
    ensures Dated(Step(c, s, a)) && s.now <= Step(c, s, a).now
  {
    hide Deposit, SumMap;
    if Perform(c, s, a).Ok? && Deposits(a) {
      if a.amount > 0 {
        DepositEffect(c, s, a.who, a.amount);
      } else {
        ZeroDeposit(c, s, a.who);
      }
    }
  }

  lemma StepSpacing(c: Config, s: State, a: Action)
    requires Watched(c) && Dated(s) && !Governance(a) && Step(c, s, a).now < U32_MAX
    ensures NextReset(c, s) <= NextReset(c, Step(c, s, a))
    ensures Resets(c, s, a) ==>
              NextReset(c, s) == s.now && NextReset(c, Step(c, s, a)) == SatAdd(s.now, c.period, U32_MAX)
  {
    hide Deposit, SumMap;
    if Perform(c, s, a).Ok? && Deposits(a) {
      if a.amount > 0 {
        DepositEffect(c, s, a.who, a.amount);
      } else {
        ZeroDeposit(c, s, a.who);
      }
    }
  }

  lemma StepClock(c: Config, s: State, a: Action)
    ensures s.now <= Step(c, s, a).now
  {}

  lemma {:induction false} RunClock(c: Config, s: State, actions: seq<Action>)
    ensures s.now <= Run(c, s, actions).now
    decreases |actions|
  {
    hide Step;
    if actions != [] {
      StepClock(c, s, actions[0]);
      RunClock(c, Step(c, s, actions[0]), actions[1..]);
    }
  }

  /** Without governance calls the openings of two periods are at least a period apart. */
  lemma {:induction false} ResetsAreSpaced(c: Config, s: State, actions: seq<Action>)
    requires Watched(c) && Dated(s) && Ungoverned(actions) && Run(c, s, actions).now < U32_MAX
    ensures ResetCount(c, s, actions) > 0 ==>
              NextReset(c, s) + Times(ResetCount(c, s, actions) - 1, c.period) <= Run(c, s, actions).now
    decreases |actions|
  {
    hide Step, Dated, Resets, NextReset;
    if actions != [] {
      var a, rest := actions[0], actions[1..];
      var s' := Step(c, s, a);
      RunClock(c, s', rest);
      StepDated(c, s, a);
      assert !Governance(a);
      StepSpacing(c, s, a);
      ResetsAreSpaced(c, s', rest);
      NextResetIsAhead(c, s');
    }
  }

  lemma DivisionByTimes(n: nat, w: nat)
    requires w > 0
    ensures Times(n / w, w) <= n < Times(n / w, w) + w
  {
    TimesIsProduct(n / w, w);
    hide Times;
    assert n == (n / w) * w + n % w;
  }

  lemma FewResets(n: nat, period: nat, elapsed: nat)
    requires period > 0 && Times(n, period) <= elapsed
    ensures n <= elapsed / period
  {
    DivisionByTimes(elapsed, period);
    var q := elapsed / period;
    hide Times;
    if q < n {
      TimesGrows(q, n, period);
    }
  }

  /**
   * The rate limit: over every run without governance calls, whoever deposits and however the
   * amounts are split, free balances gain at most one limit per started period, plus what the
   * open period still allowed and what was burnt meanwhile. The last block number is left out:
   * there every deposit opens a new period.
   */
  lemma RateLimit(c: Config, s: State, actions: seq<Action>)
    requires Watched(c) && Dated(s) && Ungoverned(actions) && Run(c, s, actions).now < U32_MAX
    ensures s.now <= Run(c, s, actions).now
    ensures TotalFreed(c, s, actions) <=
            Room(c, s) + TotalBurnt(c, s, actions) +
            Times((Run(c, s, actions).now - s.now) / c.period + 1, c.limit.value)
  {
    hide Dated, Run, TotalFreed, TotalBurnt, ResetCount, Room, Times, NextReset;
    FreedWithinPeriods(c, s, actions);
    ResetsAreSpaced(c, s, actions);
    RunClock(c, s, actions);
    var elapsed := Run(c, s, actions).now - s.now;
    var n := ResetCount(c, s, actions);
    if n > 0 {
      NextResetIsAhead(c, s);
      FewResets(n - 1, c.period, elapsed);
    }
    TimesGrows(n, elapsed / c.period + 1, c.limit.value);
  }

  /* ---- the bound is reached ---- */

  /** A limit's worth of deposits at the start of every period. */
  function Bursts(c: Config, who: Account, periods: nat): seq<Action>
    requires Watched(c)
  {
    if periods == 0 then [DoDeposit(who, c.limit.value)]
    else [DoDeposit(who, c.limit.value), DoAdvance(c.period)] + Bursts(c, who, periods - 1)
  }

  /** Depositing a limit when a period may be opened frees it all, and so does the next period. */
  lemma BurstStep(c: Config, s: State, who: Account)
    requires Watched(c) && Inv(c, s) && c.limit.value > 0 && NextReset(c, s) == s.now
    requires !PhaseOf(c, s).WithinPeriod?
    requires s.issuance + c.limit.value <= U128_MAX && s.now + c.period <= U32_MAX
    ensures var a := DoDeposit(who, c.limit.value);
            var s' := Step(c, s, a);
            && Freed(c, s, a) == c.limit.value && Inv(c, s') && s'.issuance == s.issuance + c.limit.value
            && s'.now == s.now && s'.lockdown == Unlocked(s.now, s.issuance)
  {
    hide Deposit, SumMap, Conserved;
    var a := DoDeposit(who, c.limit.value);
    StepKeeps(c, s, a);
    DepositSplits(c, s, who, c.limit.value);
    DepositEffect(c, s, who, c.limit.value);
  }

  lemma RunTwo(c: Config, s: State, a: Action, b: Action, rest: seq<Action>)
    ensures var s1 := Step(c, s, a);
            var s2 := Step(c, s1, b);
            && Run(c, s, [a, b] + rest) == Run(c, s2, rest)
            && TotalFreed(c, s, [a, b] + rest) == Freed(c, s, a) + Freed(c, s1, b) + TotalFreed(c, s2, rest)
  {
    hide Step, Freed;
    assert ([a, b] + rest)[1..] == [b] + rest;
    assert ([b] + rest)[1..] == rest;
  }

  /** The rate limit is exact: some run frees one limit per started period. */
  lemma {:induction false} RateIsReached(c: Config, s: State, who: Account, periods: nat)
    requires Watched(c) && Inv(c, s) && c.limit.value > 0 && NextReset(c, s) == s.now
    requires !PhaseOf(c, s).WithinPeriod?
    requires s.issuance + Times(periods + 1, c.limit.value) <= U128_MAX
    requires s.now + Times(periods + 1, c.period) <= U32_MAX
    ensures Run(c, s, Bursts(c, who, periods)).now == s.now + Times(periods, c.period)
    ensures TotalFreed(c, s, Bursts(c, who, periods)) == Times(periods + 1, c.limit.value)
    decreases periods
  {
    hide Freed, Inv, SumMap, Deposit;
    var a, b := DoDeposit(who, c.limit.value), DoAdvance(c.period);
    BurstStep(c, s, who);
    var s1 := Step(c, s, a);
    if periods == 0 {
      assert [a][1..] == [];
    } else {
      var s2 := Step(c, s1, b);
      StepKeeps(c, s1, b);
      RunTwo(c, s, a, b, Bursts(c, who, periods - 1));
      RateIsReached(c, s2, who, periods - 1);
      assert Freed(c, s1, b) == 0 by {
        NothingFreed(c, s1, b);
      }
    }
  }

  lemma NothingFreed(c: Config, s: State, a: Action)
    requires !Deposits(a)
    ensures Freed(c, s, a) == 0
  {}

  /** In the last block number the saturated end of a period is now, so any number of limits is freed. */
  lemma LastBlockIsUnlimited(c: Config, s: State, who: Account)
    requires Watched(c) && Inv(c, s) && c.limit.value > 0 && s.now == U32_MAX && !s.lockdown.Locked?
    requires s.issuance + c.limit.value <= U128_MAX
    ensures var a := DoDeposit(who, c.limit.value);
            var s' := Step(c, s, a);
            Freed(c, s, a) == c.limit.value && Resets(c, s, a) && s'.now == U32_MAX && !s'.lockdown.Locked? && Inv(c, s')
  {
    hide Deposit, SumMap, Conserved;
    StepKeeps(c, s, DoDeposit(who, c.limit.value));
    DepositSplits(c, s, who, c.limit.value);
    DepositEffect(c, s, who, c.limit.value);
  }
}
