/** What the issuance fuse keeps over every run, and how its two front ends relate. */
module FuseLaws {
  import opened Common
  import opened FuseModel

  /* ---- conservation ---- */

  /** Free and reserved balances over all accounts add up to the issuance. */
  ghost predicate Conserved(s: State) {
    SumMap(s.free) + SumMap(s.reserved) == s.issuance <= U128_MAX
  }

  lemma SetSum(m: map<Account, nat>, who: Account, v: nat)
    ensures SumMap(m[who := v]) == SumMap(m) - Of(m, who) + v
  {
    SumMapUpdate(m, who, v);
  }

  lemma LockConserves(c: Config, s: State, who: Account, amount: nat)
    requires Conserved(s) && Lock(c, s, who, amount).Ok?
    ensures Conserved(Lock(c, s, who, amount).state)
  {
    SetSum(s.free, who, Of(s.free, who) - amount);
    SetSum(s.reserved, who, Of(s.reserved, who) + amount);
  }

  lemma OnDepositConserves(c: Config, s: State, who: Account, amount: nat)
    requires Conserved(s) && OnDeposit(c, s, who, amount).Ok?
    ensures Conserved(OnDeposit(c, s, who, amount).state)
  {
    if Watched(c) {
      var limit := c.limit.value;
      match PhaseOf(c, s)
      case LockdownActive => LockConserves(c, s, who, amount);
      case WithinPeriod(baseline) =>
        if SatSub(s.issuance, baseline) > limit {
          LockConserves(c, s, who, SatSub(s.issuance, SatAdd(baseline, limit, U128_MAX)));
        }
      case _ =>
        if amount > limit {
          LockConserves(c, s, who, SatSub(amount, limit));
        }
    }
  }

  lemma DepositConserves(c: Config, s: State, who: Account, amount: nat)
    requires Conserved(s) && Deposit(c, s, who, amount).Ok?
    ensures Conserved(Deposit(c, s, who, amount).state)
  {
    if amount != 0 {
      SetSum(s.free, who, Of(s.free, who) + amount);
      OnDepositConserves(c, Credited(s, who, amount), who, amount);
    }
  }

  lemma TransferConserves(s: State, from: Account, to: Account, amount: nat)
    requires Conserved(s) && Transfer(s, from, to, amount).Ok?
    ensures Conserved(Transfer(s, from, to, amount).state)
  {
    var debited := s.free[from := Of(s.free, from) - amount];
    SetSum(s.free, from, Of(s.free, from) - amount);
    SetSum(debited, to, Of(debited, to) + amount);
  }

  lemma WithdrawConserves(s: State, who: Account, amount: nat)
    requires Conserved(s) && Withdraw(s, who, amount).Ok?
    ensures Conserved(Withdraw(s, who, amount).state)
  {
    SetSum(s.free, who, Of(s.free, who) - amount);
  }

  lemma ReleaseConserves(s: State, who: Account)
    requires Conserved(s) && Release(s, who).Ok?
    ensures Conserved(Release(s, who).state)
  {
    SetSum(s.free, who, Of(s.free, who) + Of(s.reserved, who));
    SetSum(s.reserved, who, 0);
  }

  lemma StepConserves(c: Config, s: State, a: Action)
    requires Conserved(s)
    ensures Conserved(Step(c, s, a))
  {
    hide SumMap, Deposit, Withdraw, Transfer, Release;
    if Perform(c, s, a).Ok? {
      match a
      case DoDeposit(who, amount) => DepositConserves(c, s, who, amount);
      case DoMint(caller, who, amount) => DepositConserves(c, s, who, amount);
      case DoBurn(caller, amount) => WithdrawConserves(s, caller, amount);
      case DoWithdraw(who, amount) => WithdrawConserves(s, who, amount);
      case DoTransfer(from, to, amount) => TransferConserves(s, from, to, amount);
      case DoRelease(who) => ReleaseConserves(s, who);
      case DoForceLift =>
      case DoLockdown(until) =>
      case DoAdvance(blocks) =>
    }
  }

  /** On every run the sum of all free and reserved balances is the issuance. */
  lemma {:induction false} RunConserves(c: Config, s: State, actions: seq<Action>)
    requires Conserved(s)
    ensures Conserved(Run(c, s, actions))
    decreases |actions|
  {
    hide Conserved, Step;
    if actions != [] {
      StepConserves(c, s, actions[0]);
      RunConserves(c, Step(c, s, actions[0]), actions[1..]);
    }
  }

  /* ---- one deposit ---- */

  /** An open period has not seen more issuance than its limit, and began in the past. */
  ghost predicate Open(c: Config, s: State)
    requires Watched(c)
  {
    && c.limit.value <= U128_MAX
    && (s.lockdown.Unlocked? ==> s.issuance <= s.lockdown.baseline + c.limit.value && s.lockdown.resetAt <= s.now)
  }

  ghost predicate Inv(c: Config, s: State)
    requires Watched(c)
  {
    Conserved(s) && Open(c, s)
  }

  /** How much the next deposit may add to free balances. */
  function Headroom(c: Config, s: State): int
    requires Watched(c)
  {
    match PhaseOf(c, s)
    case LockdownActive => 0
    case WithinPeriod(baseline) => baseline + c.limit.value - s.issuance
    case _ => c.limit.value
  }

  /** A deposit as a depositor sees it: credited up to the headroom, the rest reserved. */
  function Split(c: Config, s: State, who: Account, amount: nat): State
    requires Watched(c) && 0 <= Headroom(c, s)
  {
    var now: nat := Min(amount, Headroom(c, s));
    var s1 := s.(issuance := s.issuance + amount, free := s.free[who := Of(s.free, who) + now]);
    if now == amount then s1 else s1.(reserved := s.reserved[who := Of(s.reserved, who) + (amount - now)])
  }

  /** The lockdown state after a deposit of more than zero. */
  function AfterDeposit(c: Config, s: State, amount: nat): Lockdown
    requires Watched(c)
  {
    var phase := PhaseOf(c, s);
    if phase.LockdownActive? then s.lockdown
    else if amount > Headroom(c, s) then Locked(SatAdd(s.now, c.period, U32_MAX))
    else if phase.WithinPeriod? then s.lockdown
    else Unlocked(s.now, s.issuance)
  }

  /** Locking part of a credit leaves the rest of it free. */
  lemma LockExact(c: Config, s: State, who: Account, amount: nat, over: nat)
    requires over <= amount
    ensures Lock(c, Credited(s, who, amount), who, over) ==
            if who in c.exempt then Err(DepositLimitExceededForWhitelistedAccount)
            else Ok(s.(issuance := s.issuance + amount,
                       free := s.free[who := Of(s.free, who) + (amount - over)],
                       reserved := s.reserved[who := Of(s.reserved, who) + over]))
  {
    var s1 := Credited(s, who, amount);
    assert s1.free[who := Of(s1.free, who) - over] == s.free[who := Of(s.free, who) + (amount - over)];
  }

  /** A credit over the headroom calls for locking exactly the excess. */
  lemma OverSplits(c: Config, s: State, who: Account, amount: nat)
    requires Watched(c) && Open(c, s) && 0 < amount && s.issuance + amount <= U128_MAX
    requires amount > Headroom(c, s)
    ensures 0 <= Headroom(c, s)
    ensures Deposit(c, s, who, amount) ==
            var locked := Lock(c, Credited(s, who, amount), who, amount - Headroom(c, s));
            if locked.Err? then locked else Ok(locked.state.(lockdown := AfterDeposit(c, s, amount)))
  {
    hide Lock;
    if PhaseOf(c, s).LockdownActive? {
      LockExact(c, s, who, amount, amount);
    }
  }

  lemma UnderSplits(c: Config, s: State, who: Account, amount: nat)
    requires Watched(c) && Open(c, s) && 0 < amount && s.issuance + amount <= U128_MAX
    requires amount <= Headroom(c, s)
    ensures Deposit(c, s, who, amount) == Ok(Credited(s, who, amount).(lockdown := AfterDeposit(c, s, amount)))
  {
    hide Lock;
  }

  /**
   * A deposit is refused exactly on overflow or when part of it would have to be reserved on
   * an exempt account; otherwise it credits what the headroom allows, reserves the rest, and
   * locks the asset for a period exactly when it went over.
   */
  lemma DepositSplits(c: Config, s: State, who: Account, amount: nat)
    requires Watched(c) && Inv(c, s) && amount > 0
    ensures 0 <= Headroom(c, s)
    ensures Deposit(c, s, who, amount).Err? <==>
              s.issuance + amount > U128_MAX || (who in c.exempt && amount > Headroom(c, s))
    ensures Deposit(c, s, who, amount).Ok? ==>
              Deposit(c, s, who, amount).state == Split(c, s, who, amount).(lockdown := AfterDeposit(c, s, amount))
  {
    if s.issuance + amount <= U128_MAX {
      var over := amount - Headroom(c, s);
      if over > 0 {
        LockExact(c, s, who, amount, over);
        hide Lock;
        OverSplits(c, s, who, amount);
      } else {
        hide Lock;
        UnderSplits(c, s, who, amount);
      }
    }
  }

  /** A deposit keeps an open period within its limit. */
  lemma DepositKeepsOpen(c: Config, s: State, who: Account, amount: nat)
    requires Watched(c) && Inv(c, s) && Deposit(c, s, who, amount).Ok?
    ensures Inv(c, Deposit(c, s, who, amount).state)
  {
    hide Deposit, SumMap;
    DepositConserves(c, s, who, amount);
    if amount > 0 {
      DepositSplits(c, s, who, amount);
    } else {
      assert Deposit(c, s, who, amount).state == s by {
        ZeroDeposit(c, s, who);
      }
    }
  }

  lemma ZeroDeposit(c: Config, s: State, who: Account)
    ensures Deposit(c, s, who, 0) == Ok(s)
  {}

  lemma StepKeeps(c: Config, s: State, a: Action)
    requires Watched(c) && Inv(c, s)
    ensures Inv(c, Step(c, s, a))
  {
    hide Deposit, Conserved;
    StepConserves(c, s, a);
    if Perform(c, s, a).Ok? {
      match a
      case DoDeposit(who, amount) => DepositKeepsOpen(c, s, who, amount);
      case DoMint(caller, who, amount) => DepositKeepsOpen(c, s, who, amount);
      case _ =>
    }
  }
}
