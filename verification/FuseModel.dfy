/**
 * The issuance fuse of one asset as functions on its storage: deposits, the NTT mint gate,
 * withdrawals, the release of reserved deposits and the two governance calls.
 */
module FuseModel {
  import opened Common

  type Account = nat
  type Block = nat

  /** The storage item AssetLockdownState; `Unset` is its absence. */
  datatype Lockdown = Unset | Locked(until: Block) | Unlocked(resetAt: Block, baseline: nat)

  /** `limit` is None for an asset without a rate limit; `exempt` accounts may not be locked. */
  datatype Config = Config(period: Block, limit: Option<nat>, exempt: set<Account>, minter: Option<Account>)

  datatype State = State(
    now: Block,
    issuance: nat,
    free: map<Account, nat>,
    reserved: map<Account, nat>,
    lockdown: Lockdown)

  datatype Error =
    | Overflow | DepositLimitExceededForWhitelistedAccount | InsufficientBalance
    | CallerNotMinter | MintLimitReached | AssetInLockdown | AssetNotInLockdown | InvalidAmount

  datatype Outcome = Ok(state: State) | Err(error: Error)

  function Of(m: map<Account, nat>, who: Account): nat {
    if who in m then m[who] else 0
  }

  /* ---- the fuse ---- */

  datatype Phase = InitialDeposit | LockdownActive | LockdownExpired | PeriodExpired | WithinPeriod(baseline: nat)

  /** classify_state. */
  function Classify(lockdown: Lockdown, now: Block, period: Block): Phase {
    match lockdown
    case Unset => InitialDeposit
    case Locked(until) => if until > now then LockdownActive else LockdownExpired
    case Unlocked(resetAt, baseline) =>
      if SatAdd(resetAt, period, U32_MAX) <= now then PeriodExpired else WithinPeriod(baseline)
  }

  /** Whether the fuse watches the asset at all. */
  predicate Watched(c: Config) {
    c.period != 0 && c.limit.Some?
  }

  function PhaseOf(c: Config, s: State): Phase {
    Classify(s.lockdown, s.now, c.period)
  }

  /** do_lock_deposit: reserve part of the account's free balance. */
  function Lock(c: Config, s: State, who: Account, amount: nat): Outcome {
    if who in c.exempt then Err(DepositLimitExceededForWhitelistedAccount)
    else if Of(s.free, who) < amount then Err(InsufficientBalance)
    else Ok(s.(free := s.free[who := Of(s.free, who) - amount],
               reserved := s.reserved[who := Of(s.reserved, who) + amount]))
  }

  function LockAndClose(c: Config, s: State, who: Account, amount: nat): Outcome {
    var locked := Lock(c, s, who, amount);
    if locked.Err? then locked
    else Ok(locked.state.(lockdown := Locked(SatAdd(s.now, c.period, U32_MAX))))
  }

  /** on_deposit: runs after `amount` has been credited to `who` and added to the issuance. */
  function OnDeposit(c: Config, s: State, who: Account, amount: nat): Outcome {
    if !Watched(c) then Ok(s)
    else
      var limit := c.limit.value;
      match PhaseOf(c, s)
      case LockdownActive => Lock(c, s, who, amount)
      case WithinPeriod(baseline) =>
        if SatSub(s.issuance, baseline) > limit
        then LockAndClose(c, s, who, SatSub(s.issuance, SatAdd(baseline, limit, U128_MAX)))
        else Ok(s)
      case _ =>
        if amount > limit then LockAndClose(c, s, who, SatSub(amount, limit))
        else Ok(s.(lockdown := Unlocked(s.now, SatSub(s.issuance, amount))))
  }

  /** can_mint. */
  predicate CanMint(c: Config, s: State, amount: nat) {
    !Watched(c) ||
    match PhaseOf(c, s)
    case LockdownActive => false
    case WithinPeriod(baseline) => SatAdd(SatSub(s.issuance, baseline), amount, U128_MAX) <= c.limit.value
    case _ => amount <= c.limit.value
  }

  /* ---- operations ---- */

  function Credited(s: State, who: Account, amount: nat): State {
    s.(issuance := s.issuance + amount, free := s.free[who := Of(s.free, who) + amount])
  }

  /** A deposit of zero does nothing; an error anywhere undoes the whole deposit. */
  function Deposit(c: Config, s: State, who: Account, amount: nat): Outcome {
    if amount == 0 then Ok(s)
    else if s.issuance + amount > U128_MAX then Err(Overflow)
    else OnDeposit(c, Credited(s, who, amount), who, amount)
  }

  function Withdraw(s: State, who: Account, amount: nat): Outcome {
    if Of(s.free, who) < amount || s.issuance < amount then Err(InsufficientBalance)
    else Ok(s.(issuance := s.issuance - amount, free := s.free[who := Of(s.free, who) - amount]))
  }

  function Mint(c: Config, s: State, caller: Account, to: Account, amount: nat): Outcome {
    if c.minter != Some(caller) then Err(CallerNotMinter)
    else if !CanMint(c, s, amount) then Err(MintLimitReached)
    else Deposit(c, s, to, amount)
  }

  function Burn(c: Config, s: State, caller: Account, amount: nat): Outcome {
    if c.minter != Some(caller) then Err(CallerNotMinter) else Withdraw(s, caller, amount)
  }

  function Transfer(s: State, from: Account, to: Account, amount: nat): Outcome {
    if Of(s.free, from) < amount then Err(InsufficientBalance)
    else
      var debited := s.free[from := Of(s.free, from) - amount];
      Ok(s.(free := debited[to := Of(debited, to) + amount]))
  }

  /** release_deposit: callable by anyone, for any account. */
  function Release(s: State, who: Account): Outcome {
    if s.lockdown.Locked? && s.lockdown.until > s.now then Err(AssetInLockdown)
    else if Of(s.reserved, who) == 0 then Err(InvalidAmount)
    else Ok(s.(free := s.free[who := Of(s.free, who) + Of(s.reserved, who)],
               reserved := s.reserved[who := 0]))
  }

  function ForceLift(s: State): Outcome {
    if s.lockdown.Locked? then Ok(s.(lockdown := Unlocked(s.now, s.issuance))) else Err(AssetNotInLockdown)
  }

  datatype Action =
    | DoDeposit(who: Account, amount: nat)
    | DoMint(caller: Account, who: Account, amount: nat)
    | DoBurn(caller: Account, amount: nat)
    | DoWithdraw(who: Account, amount: nat)
    | DoTransfer(from: Account, to: Account, amount: nat)
    | DoRelease(who: Account)
    | DoForceLift
    | DoLockdown(until: Block)
    | DoAdvance(blocks: Block)

  function Perform(c: Config, s: State, a: Action): Outcome {
    match a
    case DoDeposit(who, amount) => Deposit(c, s, who, amount)
    case DoMint(caller, who, amount) => Mint(c, s, caller, who, amount)
    case DoBurn(caller, amount) => Burn(c, s, caller, amount)
    case DoWithdraw(who, amount) => Withdraw(s, who, amount)
    case DoTransfer(from, to, amount) => Transfer(s, from, to, amount)
    case DoRelease(who) => Release(s, who)
    case DoForceLift => ForceLift(s)
    case DoLockdown(until) => Ok(s.(lockdown := Locked(until)))
    case DoAdvance(blocks) => Ok(s.(now := s.now + blocks))
  }

  /** A refused operation changes nothing. */
  function Step(c: Config, s: State, a: Action): State {
    var r := Perform(c, s, a);
    if r.Ok? then r.state else s
  }

  function Run(c: Config, s: State, actions: seq<Action>): State
    decreases |actions|
  {
    if actions == [] then s else Run(c, Step(c, s, actions[0]), actions[1..])
  }
}
