/** The issuance fuse as the pallet runs it: storage updated in place, undone on error. */
module FusePallet {
  import opened Common
  import opened FuseModel
  import opened FuseLaws

  datatype Result = Done | Failed(error: Error)

  /** What a call must have done, given the specified outcome. */
  ghost predicate Agrees(before: State, after: State, result: Result, spec: Outcome) {
    match spec
    case Ok(state) => result == Done && after == state
    case Err(error) => result == Failed(error) && after == before
  }

  class IssuanceFuse {
    const cfg: Config
    var now: Block
    var issuance: nat
    var free: map<Account, nat>
    var reserved: map<Account, nat>
    var lockdown: Lockdown

    ghost function View(): State
      reads this
    {
      State(now, issuance, free, reserved, lockdown)
    }

    constructor (c: Config)
      ensures cfg == c && View() == State(0, 0, map[], map[], Unset)
      ensures Conserved(View())
    {
      cfg := c;
      now, issuance, free, reserved, lockdown := 0, 0, map[], map[], Unset;
    }

    method LockDeposit(who: Account, amount: nat) returns (r: Result)
      modifies `free, `reserved
      ensures Agrees(old(View()), View(), r, Lock(cfg, old(View()), who, amount))
    {
      if who in cfg.exempt {
        return Failed(DepositLimitExceededForWhitelistedAccount);
      }
      if Of(free, who) < amount {
        return Failed(InsufficientBalance);
      }
      free := free[who := Of(free, who) - amount];
      reserved := reserved[who := Of(reserved, who) + amount];
      return Done;
    }

    method LockForPeriod(who: Account, amount: nat) returns (r: Result)
      modifies `free, `reserved, `lockdown
      ensures Agrees(old(View()), View(), r, LockAndClose(cfg, old(View()), who, amount))
    {
      r := LockDeposit(who, amount);
      if r.Done? {
        lockdown := Locked(SatAdd(now, cfg.period, U32_MAX));
      }
    }

    method OnDeposited(who: Account, amount: nat) returns (r: Result)
      modifies `free, `reserved, `lockdown
      ensures Agrees(old(View()), View(), r, OnDeposit(cfg, old(View()), who, amount))
    {
      if cfg.period == 0 || cfg.limit.None? {
        return Done;
      }
      var limit := cfg.limit.value;
      match Classify(lockdown, now, cfg.period) {
        case LockdownActive =>
          r := LockDeposit(who, amount);
        case WithinPeriod(baseline) =>
          r := Done;
          if SatSub(issuance, baseline) > limit {
            r := LockForPeriod(who, SatSub(issuance, SatAdd(baseline, limit, U128_MAX)));
          }
        case _ =>
          if amount > limit {
            r := LockForPeriod(who, SatSub(amount, limit));
          } else {
            lockdown := Unlocked(now, SatSub(issuance, amount));
            r := Done;
          }
      }
    }

    /** Credits first and asks the fuse afterwards; a refusal undoes the credit. */
    method DoDeposit(who: Account, amount: nat) returns (r: Result)
      modifies `free, `reserved, `lockdown, `issuance
      ensures Agrees(old(View()), View(), r, Deposit(cfg, old(View()), who, amount))
    {
      hide OnDeposit;
      if amount == 0 {
        return Done;
      }
      if issuance + amount > U128_MAX {
        return Failed(Overflow);
      }
      var oldFree, oldIssuance := free, issuance;
      free := free[who := Of(free, who) + amount];
      issuance := issuance + amount;
      r := OnDeposited(who, amount);
      if r.Failed? {
        free, issuance := oldFree, oldIssuance;
      }
    }

    method MayMint(amount: nat) returns (ok: bool)
      ensures ok <==> CanMint(cfg, View(), amount)
    {
      if cfg.period == 0 || cfg.limit.None? {
        return true;
      }
      match Classify(lockdown, now, cfg.period) {
        case LockdownActive => ok := false;
        case WithinPeriod(baseline) =>
          var increase := SatSub(issuance, baseline);
          ok := SatAdd(increase, amount, U128_MAX) <= cfg.limit.value;
        case _ => ok := amount <= cfg.limit.value;
      }
    }

    method DoMint(caller: Account, to: Account, amount: nat) returns (r: Result)
      modifies `free, `reserved, `lockdown, `issuance
      ensures Agrees(old(View()), View(), r, Mint(cfg, old(View()), caller, to, amount))
    {
      if cfg.minter != Some(caller) {
        return Failed(CallerNotMinter);
      }
      var ok := MayMint(amount);
      if !ok {
        return Failed(MintLimitReached);
      }
      r := DoDeposit(to, amount);
    }

    method DoWithdraw(who: Account, amount: nat) returns (r: Result)
      modifies `free, `issuance
      ensures Agrees(old(View()), View(), r, Withdraw(old(View()), who, amount))
    {
      if Of(free, who) < amount || issuance < amount {
        return Failed(InsufficientBalance);
      }
      free := free[who := Of(free, who) - amount];
      issuance := issuance - amount;
      return Done;
    }

    method DoBurn(caller: Account, amount: nat) returns (r: Result)
      modifies `free, `issuance
      ensures Agrees(old(View()), View(), r, Burn(cfg, old(View()), caller, amount))
    {
      if cfg.minter != Some(caller) {
        return Failed(CallerNotMinter);
      }
      r := DoWithdraw(caller, amount);
    }

    method ReleaseDeposit(who: Account) returns (r: Result)
      modifies `free, `reserved
      ensures Agrees(old(View()), View(), r, Release(old(View()), who))
    {
      if lockdown.Locked? && lockdown.until > now {
        return Failed(AssetInLockdown);
      }
      var amount := Of(reserved, who);
      if amount == 0 {
        return Failed(InvalidAmount);
      }
      reserved := reserved[who := 0];
      free := free[who := Of(free, who) + amount];
      return Done;
    }

    method ForceLiftLockdown() returns (r: Result)
      modifies `lockdown
      ensures Agrees(old(View()), View(), r, ForceLift(old(View())))
    {
      if !lockdown.Locked? {
        return Failed(AssetNotInLockdown);
      }
      lockdown := Unlocked(now, issuance);
      return Done;
    }
  }
}
