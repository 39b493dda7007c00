/** Exactly what each call of the fuse does to whom: releases, transfers, burns, and assets without a limit. */
module FuseRelease {
  import opened Common
  import opened FuseModel
  import opened FuseLaws
  import opened FuseRate

  /** Only `who` differs, and by so much. */
  ghost predicate OnlyOf(m: map<Account, nat>, m': map<Account, nat>, who: Account, delta: int) {
    forall a :: Of(m', a) == Of(m, a) + if a == who then delta else 0
  }

  /* ---- release ---- */

  /** A lockdown is running. */
  predicate InLockdown(s: State) {
    match s.lockdown
    case Locked(until) => s.now < until
    case _ => false
  }

  /**
   * In every state, whoever calls: a release succeeds exactly if no lockdown is running and
   * something is reserved; it then frees the account's whole reserve and changes nothing else.
   */
  lemma ReleaseIff(s: State, who: Account)
    ensures var r := Release(s, who);
            && (r.Ok? <==> !InLockdown(s) && Of(s.reserved, who) > 0)
            && (r.Err? ==> r.error == if InLockdown(s) then AssetInLockdown else InvalidAmount)
            && (r.Ok? ==> && OnlyOf(s.free, r.state.free, who, Of(s.reserved, who))
                          && OnlyOf(s.reserved, r.state.reserved, who, 0 - Of(s.reserved, who))
                          && r.state == s.(free := r.state.free, reserved := r.state.reserved))
  {}

  /** A lockdown that governance lifts gives back everything reserved at once, with a whole new limit. */
  lemma LiftedThenReleased(c: Config, s: State, who: Account)
    requires Watched(c) && s.lockdown.Locked? && Of(s.reserved, who) > 0 && s.now + c.period <= U32_MAX
    ensures ForceLift(s).Ok?
    ensures var lifted := ForceLift(s).state;
            var r := Release(lifted, who);
            && lifted == s.(lockdown := lifted.lockdown) && PhaseOf(c, lifted).WithinPeriod? && Headroom(c, lifted) == c.limit.value
            && r.Ok? && Of(r.state.free, who) == Of(s.free, who) + Of(s.reserved, who) && Of(r.state.reserved, who) == 0
  {}

  /** Only a locked asset can be lifted. */
  lemma LiftIff(s: State)
    ensures ForceLift(s).Ok? <==> s.lockdown.Locked?
  {}

  /**
   * Once a lockdown is over, a later deposit within the limit, by anyone, opens a period in which
   * every reserve of the periods before can be released whole.
   */
  lemma NewPeriodThenReleased(c: Config, s: State, depositor: Account, amount: nat, who: Account)
    requires Watched(c) && Inv(c, s) && PhaseOf(c, s).LockdownExpired? && 0 < amount <= c.limit.value
    requires s.issuance + amount <= U128_MAX && Of(s.reserved, who) > 0
    ensures Deposit(c, s, depositor, amount).Ok?
    ensures var s' := Deposit(c, s, depositor, amount).state;
            var r := Release(s', who);
            && s'.lockdown == Unlocked(s.now, s.issuance) && s'.reserved == s.reserved
            && r.Ok? && Of(r.state.free, who) == Of(s'.free, who) + Of(s.reserved, who) && Of(r.state.reserved, who) == 0
  {
    hide Deposit, Conserved;
    DepositSplits(c, s, depositor, amount);
    ReleaseIff(Deposit(c, s, depositor, amount).state, who);
  }

  /** A reserve only falls by its owner's release, which empties it, and only rises by deposits to it. */
  lemma ReservedChanges(c: Config, s: State, a: Action, who: Account)
    requires Watched(c) && Inv(c, s)
    ensures var before, after := Of(s.reserved, who), Of(Step(c, s, a).reserved, who);
            && (after < before ==> a == DoRelease(who) && after == 0 && !InLockdown(s))
            && (after > before ==> Deposits(a) && a.who == who)
  {
    hide Deposit, Conserved;
    if Perform(c, s, a).Ok? && Deposits(a) {
      if a.amount > 0 {
        DepositSplits(c, s, a.who, a.amount);
      } else {
        ZeroDeposit(c, s, a.who);
      }
    }
  }

  /**
   * Over every run in which no release for the account is made, its reserve never falls, and
   * where no lockdown is running at the end, one release frees all of it.
   */
  lemma {:induction false} ReserveWaits(c: Config, s: State, actions: seq<Action>, who: Account)
    requires Watched(c) && Inv(c, s) && Of(s.reserved, who) > 0
    requires forall i :: 0 <= i < |actions| ==> actions[i] != DoRelease(who)
    ensures var s' := Run(c, s, actions);
            && Of(s.reserved, who) <= Of(s'.reserved, who)
            && (Release(s', who).Ok? <==> !InLockdown(s'))
            && (Release(s', who).Ok? ==> Of(Release(s', who).state.free, who) >= Of(s'.free, who) + Of(s.reserved, who))
    decreases |actions|
  {
    hide Step, Inv;
    if actions != [] {
      StepKeeps(c, s, actions[0]);
      ReservedChanges(c, s, actions[0], who);
      ReserveWaits(c, Step(c, s, actions[0]), actions[1..], who);
    }
  }

  /* ---- transfers and burns ---- */

  /** A transfer takes the amount from its sender and gives it to its receiver, or fails for want of funds. */
  lemma TransferMoves(s: State, from: Account, to: Account, amount: nat)
    ensures var r := Transfer(s, from, to, amount);
            && (r.Ok? <==> amount <= Of(s.free, from))
            && (r.Ok? ==> && r.state == s.(free := r.state.free)
                          && forall a :: Of(r.state.free, a) ==
                                         Of(s.free, a) - (if a == from then amount else 0) + (if a == to then amount else 0))
  {}

  /** A burn is the minter's alone and comes out of the minter's own free balance and the issuance. */
  lemma BurnTakesFromMinter(c: Config, s: State, caller: Account, amount: nat)
    requires Conserved(s)
    ensures var r := Burn(c, s, caller, amount);
            && (r.Ok? <==> c.minter == Some(caller) && amount <= Of(s.free, caller))
            && (r.Ok? ==> && OnlyOf(s.free, r.state.free, caller, 0 - amount)
                          && r.state == s.(free := r.state.free, issuance := s.issuance - amount))
  {
    FreeIsIssued(s, caller);
    hide SumMap;
  }

  lemma FreeIsIssued(s: State, who: Account)
    requires Conserved(s)
    ensures Of(s.free, who) <= s.issuance
  {
    if who in s.free {
      SumMapSplit(s.free, who);
    }
  }

  /* ---- assets without a limit ---- */

  /** Without a limit or a period the fuse stays out of it: deposits and mints fail on overflow only. */
  lemma UnlimitedDeposit(c: Config, s: State, caller: Account, who: Account, amount: nat)
    requires !Watched(c) && s.issuance <= U128_MAX
    ensures var r := Deposit(c, s, who, amount);
            && (r.Ok? <==> s.issuance + amount <= U128_MAX)
            && (r.Ok? ==> && OnlyOf(s.free, r.state.free, who, amount)
                          && r.state == s.(free := r.state.free, issuance := s.issuance + amount))
    ensures Mint(c, s, caller, who, amount) ==
            if c.minter == Some(caller) then Deposit(c, s, who, amount) else Err(CallerNotMinter)
  {}
}
