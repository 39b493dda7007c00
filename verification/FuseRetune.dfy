/** The rate bound when the limit changes between steps. */
module FuseRetune {
  import opened Common
  import opened FuseModel
  import opened FuseLaws
  import opened FuseRate

  /** A step, and the limit in force when it is taken. */
  datatype Tuned = Tuned(limit: nat, action: Action)

  function At(c: Config, limit: nat): Config {
    c.(limit := Some(limit))
  }

  function RunTuned(c: Config, s: State, steps: seq<Tuned>): State
    decreases |steps|
  {
    if steps == [] then s else RunTuned(c, Step(At(c, steps[0].limit), s, steps[0].action), steps[1..])
  }

  ghost function FreedTuned(c: Config, s: State, steps: seq<Tuned>): int
    decreases |steps|
  {
    if steps == [] then 0
    else
      var c0, a := At(c, steps[0].limit), steps[0].action;
      Freed(c0, s, a) + FreedTuned(c, Step(c0, s, a), steps[1..])
  }

  function BurntTuned(c: Config, s: State, steps: seq<Tuned>): int
    decreases |steps|
  {
    if steps == [] then 0
    else
      var c0, a := At(c, steps[0].limit), steps[0].action;
      Burnt(c0, s, a) + BurntTuned(c, Step(c0, s, a), steps[1..])
  }

  function ResetsTuned(c: Config, s: State, steps: seq<Tuned>): nat
    decreases |steps|
  {
    if steps == [] then 0
    else
      var c0, a := At(c, steps[0].limit), steps[0].action;
      (if Resets(c0, s, a) then 1 else 0) + ResetsTuned(c, Step(c0, s, a), steps[1..])
  }

  /** The limits in force when periods were opened. */
  function Granted(c: Config, s: State, steps: seq<Tuned>): nat
    decreases |steps|
  {
    if steps == [] then 0
    else
      var c0, a := At(c, steps[0].limit), steps[0].action;
      (if Resets(c0, s, a) then steps[0].limit else 0) + Granted(c, Step(c0, s, a), steps[1..])
  }

  /** By how much the limit was raised while a period was open, from `limit` on. */
  function Raised(c: Config, limit: nat, s: State, steps: seq<Tuned>): nat
    decreases |steps|
  {
    if steps == [] then 0
    else
      var c0, a := At(c, steps[0].limit), steps[0].action;
      (if PhaseOf(c0, s).WithinPeriod? then SatSub(steps[0].limit, limit) else 0) +
      Raised(c, steps[0].limit, Step(c0, s, a), steps[1..])
  }

  function LastLimit(limit: nat, steps: seq<Tuned>): nat {
    if steps == [] then limit else steps[|steps| - 1].limit
  }

  /** Retuning gives an open period no more room than the limit is raised by. */
  lemma RetunedRoom(c: Config, s: State, from: nat, to: nat)
    requires c.period != 0
    ensures Room(At(c, to), s) <= Room(At(c, from), s) + if PhaseOf(At(c, to), s).WithinPeriod? then SatSub(to, from) else 0
  {}

  /**
   * Over every run, with the limit changed at will between steps, deposits put into free balances
   * no more than what the open period allowed, what was burnt, the limits in force when periods
   * were opened, and what the limit was raised by during open periods. Lowering it frees nothing.
   */
  lemma {:induction false} FreedWhileRetuned(c: Config, limit: nat, s: State, steps: seq<Tuned>)
    requires c.period != 0
    ensures FreedTuned(c, s, steps) + Room(At(c, LastLimit(limit, steps)), RunTuned(c, s, steps)) <=
            Room(At(c, limit), s) + BurntTuned(c, s, steps) + Granted(c, s, steps) + Raised(c, limit, s, steps)
    decreases |steps|
  {
    hide Step, Freed, Burnt, Resets, Room, PhaseOf;
    if steps != [] {
      var c0, a, rest := At(c, steps[0].limit), steps[0].action, steps[1..];
      RetunedRoom(c, s, limit, steps[0].limit);
      StepPotential(c0, s, a);
      FreedWhileRetuned(c, steps[0].limit, Step(c0, s, a), rest);
    }
  }

  /* ---- by time ---- */

  /** No limit above `top`, and no governance call on the lockdown. */
  predicate Capped(steps: seq<Tuned>, top: nat) {
    forall i :: 0 <= i < |steps| ==> steps[i].limit <= top && !Governance(steps[i].action)
  }

  lemma {:induction false} GrantedIsCapped(c: Config, s: State, steps: seq<Tuned>, top: nat)
    requires Capped(steps, top)
    ensures Granted(c, s, steps) <= Times(ResetsTuned(c, s, steps), top)
    decreases |steps|
  {
    hide Step, Resets;
    if steps != [] {
      assert steps[0].limit <= top;
      GrantedIsCapped(c, Step(At(c, steps[0].limit), s, steps[0].action), steps[1..], top);
    }
  }

  lemma {:induction false} TunedClock(c: Config, s: State, steps: seq<Tuned>)
    ensures s.now <= RunTuned(c, s, steps).now
    decreases |steps|
  {
    hide Step;
    if steps != [] {
      var c0, a := At(c, steps[0].limit), steps[0].action;
      StepClock(c0, s, a);
      TunedClock(c, Step(c0, s, a), steps[1..]);
    }
  }

  lemma NextResetIgnoresLimit(c: Config, limit: nat, s: State)
    ensures NextReset(At(c, limit), s) == NextReset(c, s)
  {}

  lemma {:induction false} TunedResetsAreSpaced(c: Config, s: State, steps: seq<Tuned>, top: nat)
    requires c.period != 0 && Dated(s) && Capped(steps, top) && RunTuned(c, s, steps).now < U32_MAX
    ensures ResetsTuned(c, s, steps) > 0 ==>
              NextReset(c, s) + Times(ResetsTuned(c, s, steps) - 1, c.period) <= RunTuned(c, s, steps).now
    decreases |steps|
  {
    hide Step, Dated, Resets, NextReset;
    if steps != [] {
      var c0, a, rest := At(c, steps[0].limit), steps[0].action, steps[1..];
      var s' := Step(c0, s, a);
      TunedClock(c, s', rest);
      StepDated(c0, s, a);
      assert !Governance(a);
      StepSpacing(c0, s, a);
      NextResetIgnoresLimit(c, steps[0].limit, s);
      NextResetIgnoresLimit(c, steps[0].limit, s');
      TunedResetsAreSpaced(c, s', rest, top);
      NextResetIsAhead(c, s');
    }
  }

  /**
   * The rate limit under changing limits: without governance calls on the lockdown, free balances
   * gain at most the highest limit per started period, plus the room left open, what was burnt,
   * and the raises during open periods.
   */
  lemma RetunedRateLimit(c: Config, limit: nat, s: State, steps: seq<Tuned>, top: nat)
    requires c.period != 0 && Dated(s) && Capped(steps, top) && RunTuned(c, s, steps).now < U32_MAX
    ensures s.now <= RunTuned(c, s, steps).now
    ensures FreedTuned(c, s, steps) <=
            Room(At(c, limit), s) + BurntTuned(c, s, steps) + Raised(c, limit, s, steps) +
            Times((RunTuned(c, s, steps).now - s.now) / c.period + 1, top)
  {
    hide Dated, RunTuned, FreedTuned, BurntTuned, ResetsTuned, Granted, Raised, Room, Times, NextReset, Capped;
    FreedWhileRetuned(c, limit, s, steps);
    GrantedIsCapped(c, s, steps, top);
    TunedResetsAreSpaced(c, s, steps, top);
    TunedClock(c, s, steps);
    var elapsed, n := RunTuned(c, s, steps).now - s.now, ResetsTuned(c, s, steps);
    if n > 0 {
      NextResetIsAhead(c, s);
      FewResets(n - 1, c.period, elapsed);
    }
    TimesGrows(n, elapsed / c.period + 1, top);
  }
}
