/** How deposits compose, how the mint gate relates to them, and how reserved funds come back. */
module FuseFronts {
  import opened Common
  import opened FuseModel
  import opened FuseLaws
  import opened FuseRate

  /* ---- splitting a deposit ---- */

  function Then(c: Config, r: Outcome, who: Account, amount: nat): Outcome {
    if r.Err? then r else Deposit(c, r.state, who, amount)
  }

  lemma TwoCredits(c: Config, s: State, who: Account, x: nat, y: nat)
    requires Watched(c) && Inv(c, s) && s.now < U32_MAX && x > 0 && y > 0
    requires Deposit(c, s, who, x).Ok?
    ensures 0 <= Headroom(c, s)
    ensures var s1 := Deposit(c, s, who, x).state;
            && Headroom(c, s1) == Max(0, Headroom(c, s) - x)
            && AfterDeposit(c, s1, y) == AfterDeposit(c, s, x + y)
  {
    hide Deposit, Conserved;
    DepositSplits(c, s, who, x);
  }

  lemma SplitsCompose(c: Config, s: State, s1: State, who: Account, x: nat, y: nat)
    requires Watched(c) && 0 <= Headroom(c, s)
    requires s1 == Split(c, s, who, x).(lockdown := s1.lockdown)
    requires Headroom(c, s1) == Max(0, Headroom(c, s) - x)
    ensures Split(c, s1, who, y).(lockdown := s.lockdown) == Split(c, s, who, x + y)
  {
    hide Headroom;
    var before, after := Split(c, s1, who, y), Split(c, s, who, x + y);
    if x + y <= Headroom(c, s) {
      assert before.free == after.free && before.reserved == after.reserved;
    } else if x <= Headroom(c, s) {
      assert before.free == after.free && before.reserved == after.reserved;
    } else {
      assert before.free == after.free;
      assert before.reserved == after.reserved;
    }
  }

  /**
   * Within one block deposits add up: depositing `x` and then `y` succeeds exactly when
   * depositing `x + y` does, and leaves the same state, lockdown included.
   */
  lemma BlockDepositsAddUp(c: Config, s: State, who: Account, x: nat, y: nat)
    requires Watched(c) && Inv(c, s) && s.now < U32_MAX
    ensures var once := Deposit(c, s, who, x + y);
            var twice := Then(c, Deposit(c, s, who, x), who, y);
            && (once.Ok? <==> twice.Ok?)
            && (once.Ok? ==> once.state == twice.state)
  {
    hide Deposit, Split, Conserved, AfterDeposit;
    if x == 0 || y == 0 {
      ZeroDeposit(c, s, who);
      if Deposit(c, s, who, x).Ok? {
        ZeroDeposit(c, Deposit(c, s, who, x).state, who);
      }
    } else {
      DepositSplits(c, s, who, x + y);
      DepositSplits(c, s, who, x);
      if Deposit(c, s, who, x).Ok? {
        var s1 := Deposit(c, s, who, x).state;
        DepositKeepsOpen(c, s, who, x);
        DepositSplits(c, s1, who, y);
        TwoCredits(c, s, who, x, y);
        assert s1.issuance == s.issuance + x by {
          SplitIssuance(c, s, who, x);
        }
        SplitsCompose(c, s, s1, who, x, y);
      }
    }
  }

  lemma SplitIssuance(c: Config, s: State, who: Account, amount: nat)
    requires Watched(c) && 0 <= Headroom(c, s)
    ensures Split(c, s, who, amount).issuance == s.issuance + amount
  {}

  /* ---- splitting over a period ---- */

  /** A deposit made some blocks after the one before it. */
  datatype Part = Part(gap: Block, amount: nat)

  function Later(s: State, gap: Block): State {
    s.(now := s.now + gap)
  }

  function DepositParts(c: Config, r: Outcome, who: Account, parts: seq<Part>): Outcome
    decreases |parts|
  {
    if parts == [] || r.Err? then r
    else DepositParts(c, Deposit(c, Later(r.state, parts[0].gap), who, parts[0].amount), who, parts[1..])
  }

  function Sum(parts: seq<Part>): nat {
    if parts == [] then 0 else parts[0].amount + Sum(parts[1..])
  }

  predicate Running(phase: Phase) {
    phase.WithinPeriod? || phase.LockdownActive?
  }

  /** Every part falls into the period, or the lockdown, that the deposits before it left running. */
  predicate Unexpired(c: Config, r: Outcome, who: Account, parts: seq<Part>)
    decreases |parts|
  {
    parts == [] || r.Err? ||
    (Running(PhaseOf(c, Later(r.state, parts[0].gap))) &&
     Unexpired(c, Deposit(c, Later(r.state, parts[0].gap), who, parts[0].amount), who, parts[1..]))
  }

  /** What the lockdown state leaves for deposits while it lasts. */
  function Left(c: Config, s: State): int
    requires Watched(c)
  {
    match s.lockdown
    case Unset => c.limit.value
    case Locked(_) => 0
    case Unlocked(_, baseline) => baseline + c.limit.value - s.issuance
  }

  /** A total that one deposit could make. */
  predicate Fits(c: Config, s: State, who: Account, total: nat)
    requires Watched(c)
  {
    total == 0 || (s.issuance + total <= U128_MAX && (who in c.exempt ==> total <= Headroom(c, s)))
  }

  /** The funds of every account after `total` was deposited for `who`, with the headroom of `s`. */
  ghost predicate Funded(c: Config, s: State, t: State, who: Account, total: nat)
    requires Watched(c)
  {
    var now := Min(total, Headroom(c, s));
    && t.issuance == s.issuance + total
    && (forall a :: Of(t.free, a) == Of(s.free, a) + if a == who then now else 0)
    && (forall a :: Of(t.reserved, a) == Of(s.reserved, a) + if a == who then total - now else 0)
  }

  /** Where the parts deposited so far have led. */
  ghost predicate Progress(c: Config, s: State, t: State, who: Account, total: nat)
    requires Watched(c)
  {
    && Inv(c, t) && s.now <= t.now && 0 <= Headroom(c, s)
    && Fits(c, s, who, total) && Funded(c, s, t, who, total)
    && (if total == 0 then t.lockdown == s.lockdown else Left(c, t) == Max(0, Headroom(c, s) - total))
  }

  /** While a period or lockdown runs, the headroom is what the deposits so far have left of it. */
  lemma HeadroomLater(c: Config, s: State, t: State, who: Account, total: nat, gap: Block)
    requires Watched(c) && Progress(c, s, t, who, total) && Running(PhaseOf(c, Later(t, gap)))
    ensures Headroom(c, Later(t, gap)) == Max(0, Headroom(c, s) - total)
  {
    assert t.issuance == s.issuance + total;
    hide Funded, Inv;
  }

  lemma LaterKeeps(c: Config, s: State, t: State, who: Account, total: nat, gap: Block)
    requires Watched(c) && Progress(c, s, t, who, total)
    ensures Inv(c, Later(t, gap)) && Progress(c, s, Later(t, gap), who, total)
  {
    hide SumMap;
  }

  lemma DepositLeft(c: Config, u: State, who: Account, x: nat)
    requires Watched(c) && Inv(c, u) && x > 0 && Deposit(c, u, who, x).Ok?
    ensures 0 <= Headroom(c, u) && Left(c, Deposit(c, u, who, x).state) == Max(0, Headroom(c, u) - x)
    ensures Funded(c, u, Deposit(c, u, who, x).state, who, x) && Deposit(c, u, who, x).state.now == u.now
  {
    hide Deposit, Conserved;
    DepositSplits(c, u, who, x);
  }

  lemma FundedTwice(c: Config, s: State, t: State, u: State, v: State, who: Account, total: nat, x: nat)
    requires Watched(c) && 0 <= Headroom(c, s) && Funded(c, s, t, who, total)
    requires u.issuance == t.issuance && u.free == t.free && u.reserved == t.reserved
    requires Headroom(c, u) == Max(0, Headroom(c, s) - total) && Funded(c, u, v, who, x)
    ensures Funded(c, s, v, who, total + x)
  {
    hide Headroom, Of;
    forall a
      ensures Of(v.free, a) == Of(s.free, a) + if a == who then Min(total + x, Headroom(c, s)) else 0
      ensures Of(v.reserved, a) == Of(s.reserved, a) + if a == who then total + x - Min(total + x, Headroom(c, s)) else 0
    {
      assert Of(v.free, a) == Of(u.free, a) + if a == who then Min(x, Headroom(c, u)) else 0;
      assert Of(t.free, a) == Of(s.free, a) + if a == who then Min(total, Headroom(c, s)) else 0;
      assert Of(v.reserved, a) == Of(u.reserved, a) + if a == who then x - Min(x, Headroom(c, u)) else 0;
      assert Of(t.reserved, a) == Of(s.reserved, a) + if a == who then total - Min(total, Headroom(c, s)) else 0;
    }
  }

  lemma DepositFits(c: Config, u: State, who: Account, x: nat)
    requires Watched(c) && Inv(c, u)
    ensures Deposit(c, u, who, x).Ok? <==> Fits(c, u, who, x)
  {
    hide Deposit, Headroom, Conserved, Open, Split, AfterDeposit;
    if x == 0 {
      ZeroDeposit(c, u, who);
    } else {
      DepositSplits(c, u, who, x);
    }
  }

  lemma FitsTogether(c: Config, s: State, u: State, who: Account, total: nat, x: nat)
    requires Watched(c) && 0 <= Headroom(c, s) && Fits(c, s, who, total) && u.issuance == s.issuance + total
    requires Headroom(c, u) == Max(0, Headroom(c, s) - total) && u.issuance <= U128_MAX
    ensures Fits(c, u, who, x) <==> Fits(c, s, who, total + x)
  {
    hide Headroom;
  }

  lemma FitsLess(c: Config, s: State, who: Account, total: nat, more: nat)
    requires Watched(c) && Fits(c, s, who, total + more)
    ensures Fits(c, s, who, total)
  {
    hide Headroom;
  }

  lemma ProgressFacts(c: Config, s: State, t: State, who: Account, total: nat)
    requires Watched(c) && Progress(c, s, t, who, total)
    ensures 0 <= Headroom(c, s) && Fits(c, s, who, total) && t.issuance == s.issuance + total <= U128_MAX
    ensures Funded(c, s, t, who, total)
  {
    IssuanceFits(t);
    hide Headroom, Conserved;
  }

  /** One more part: it goes through exactly if the new total fits, and then the relation goes on. */
  lemma PartStep(c: Config, s: State, t: State, who: Account, total: nat, part: Part)
    requires Watched(c) && Progress(c, s, t, who, total) && Running(PhaseOf(c, Later(t, part.gap)))
    ensures var r := Deposit(c, Later(t, part.gap), who, part.amount);
            && (r.Ok? <==> Fits(c, s, who, total + part.amount))
            && (r.Ok? ==> Progress(c, s, r.state, who, total + part.amount))
  {
    var u, x := Later(t, part.gap), part.amount;
    hide Deposit, Headroom, Inv, Left, PhaseOf, Funded, Fits;
    HeadroomLater(c, s, t, who, total, part.gap);
    LaterKeeps(c, s, t, who, total, part.gap);
    ProgressFacts(c, s, t, who, total);
    DepositFits(c, u, who, x);
    FitsTogether(c, s, u, who, total, x);
    if x == 0 {
      ZeroDeposit(c, u, who);
    } else if Deposit(c, u, who, x).Ok? {
      DepositKeepsOpen(c, u, who, x);
      DepositLeft(c, u, who, x);
      FundedTwice(c, s, t, u, Deposit(c, u, who, x).state, who, total, x);
    }
  }

  lemma {:induction false} PartsProgress(c: Config, s: State, t: State, who: Account, total: nat, parts: seq<Part>)
    requires Watched(c) && Progress(c, s, t, who, total) && Unexpired(c, Ok(t), who, parts)
    ensures var r := DepositParts(c, Ok(t), who, parts);
            && (r.Ok? <==> Fits(c, s, who, total + Sum(parts)))
            && (r.Ok? ==> Progress(c, s, r.state, who, total + Sum(parts)))
    decreases |parts|
  {
    hide Deposit, Progress, PhaseOf, Fits;
    if parts == [] {
      ProgressFacts(c, s, t, who, total);
    } else {
      var x, rest := parts[0].amount, parts[1..];
      PartStep(c, s, t, who, total, parts[0]);
      var r := Deposit(c, Later(t, parts[0].gap), who, x);
      assert total + Sum(parts) == total + x + Sum(rest);
      if r.Ok? {
        PartsProgress(c, s, r.state, who, total + x, rest);
      } else if Fits(c, s, who, total + Sum(parts)) {
        FitsLess(c, s, who, total + x, Sum(rest));
      }
    }
  }

  lemma FirstPart(c: Config, s: State, who: Account, first: nat)
    requires Watched(c) && Inv(c, s)
    ensures var r := Deposit(c, s, who, first);
            && (r.Ok? <==> Fits(c, s, who, first))
            && (r.Ok? ==> Progress(c, s, r.state, who, first))
  {
    hide Deposit, Conserved;
    OpenHeadroom(c, s);
    if first == 0 {
      ZeroDeposit(c, s, who);
    } else {
      DepositSplits(c, s, who, first);
      if Deposit(c, s, who, first).Ok? {
        DepositKeepsOpen(c, s, who, first);
        DepositLeft(c, s, who, first);
      }
    }
  }

  /** The same issuance, and the same free and reserved balance for every account. */
  ghost predicate SameFunds(s: State, t: State) {
    t.issuance == s.issuance && forall a :: Of(t.free, a) == Of(s.free, a) && Of(t.reserved, a) == Of(s.reserved, a)
  }

  /**
   * Any number of deposits by one account, spread over the blocks of one period or of the
   * lockdown they run into, succeed exactly when a single deposit of their sum does, and leave
   * every account with the same free and reserved funds.
   */
  lemma PartsGainNothing(c: Config, s: State, who: Account, first: nat, parts: seq<Part>)
    requires Watched(c) && Inv(c, s) && Unexpired(c, Deposit(c, s, who, first), who, parts)
    ensures var once := Deposit(c, s, who, first + Sum(parts));
            var split := DepositParts(c, Deposit(c, s, who, first), who, parts);
            && (once.Ok? <==> split.Ok?)
            && (once.Ok? ==> SameFunds(once.state, split.state))
  {
    hide Deposit, Inv, Headroom, Left;
    FirstPart(c, s, who, first);
    FirstPart(c, s, who, first + Sum(parts));
    if Deposit(c, s, who, first).Ok? {
      PartsProgress(c, s, Deposit(c, s, who, first).state, who, first, parts);
    }
  }

  /* ---- the mint gate ---- */

  /** The amount is credited in full, with nothing reserved. */
  predicate WhollyFree(c: Config, s: State, who: Account, amount: nat) {
    var r := Deposit(c, s, who, amount);
    r.Ok? && r.state.reserved == s.reserved && Of(r.state.free, who) == Of(s.free, who) + amount
  }

  /** Two corners where the gate refuses what a plain deposit would credit in full. */
  predicate GateIsStricter(c: Config, s: State, amount: nat)
    requires Watched(c)
  {
    match PhaseOf(c, s)
    case LockdownActive => amount == 0
    case WithinPeriod(baseline) =>
      s.issuance < baseline && c.limit.value < amount <= c.limit.value + (baseline - s.issuance)
    case _ => false
  }

  lemma WhollyFreeIff(c: Config, s: State, who: Account, amount: nat)
    requires Watched(c) && Inv(c, s)
    ensures 0 <= Headroom(c, s)
    ensures WhollyFree(c, s, who, amount) <==>
              s.issuance + amount <= U128_MAX && amount <= Headroom(c, s)
  {
    hide Deposit, Conserved, SumMap;
    if amount == 0 {
      ZeroDeposit(c, s, who);
      assert s.issuance <= U128_MAX by {
        IssuanceFits(s);
      }
    } else {
      DepositSplits(c, s, who, amount);
    }
  }

  lemma IssuanceFits(s: State)
    requires Conserved(s)
    ensures s.issuance <= U128_MAX
  {}

  /** The gate in terms of the headroom of deposits. */
  lemma GateIff(c: Config, s: State, amount: nat)
    requires Watched(c) && Open(c, s) && s.issuance + amount <= U128_MAX
    ensures CanMint(c, s, amount) <==> amount <= Headroom(c, s) && !GateIsStricter(c, s, amount)
  {}

  /**
   * A mint by the minter goes through exactly when a plain deposit of the amount would be
   * credited in full, except in the two corners; and it then equals that deposit.
   */
  lemma MintIffWhollyFree(c: Config, s: State, caller: Account, to: Account, amount: nat)
    requires Watched(c) && Inv(c, s)
    ensures Mint(c, s, caller, to, amount).Ok? <==>
              c.minter == Some(caller) && WhollyFree(c, s, to, amount) && !GateIsStricter(c, s, amount)
    ensures Mint(c, s, caller, to, amount).Ok? ==>
              Mint(c, s, caller, to, amount) == Deposit(c, s, to, amount)
  {
    hide Deposit, Conserved, CanMint, GateIsStricter, Headroom, WhollyFree;
    WhollyFreeIff(c, s, to, amount);
    if s.issuance + amount <= U128_MAX {
      GateIff(c, s, amount);
      if amount > 0 {
        DepositSplits(c, s, to, amount);
      } else {
        ZeroDeposit(c, s, to);
      }
    } else if amount > 0 {
      DepositSplits(c, s, to, amount);
    } else {
      IssuanceFits(s);
    }
  }

  /** The plain equivalence is false: below its baseline an open period takes a larger deposit than mint. */
  lemma GateBelowBaseline()
    ensures exists c: Config, s: State, who: Account, amount: nat ::
              Watched(c) && Inv(c, s) && c.minter == Some(who) &&
              WhollyFree(c, s, who, amount) && Mint(c, s, who, who, amount) == Err(MintLimitReached)
  {
    var c := Config(10, Some(5), {}, Some(1));
    var s := State(20, 2, map[1 := 2], map[], Unlocked(15, 4));
    assert SumMap(s.free) == 2 by {
      assert map[] [1 := 2] == s.free;
      SetSum(map[], 1, 2);
    }
    WhollyFreeIff(c, s, 1, 6);
    assert Mint(c, s, 1, 1, 6) == Err(MintLimitReached);
  }

  /** An accepted mint reserves nothing, leaves a period open, and stays within its limit. */
  lemma AcceptedMintStaysOpen(c: Config, s: State, caller: Account, to: Account, amount: nat)
    requires Watched(c) && Inv(c, s) && amount > 0 && Mint(c, s, caller, to, amount).Ok?
    ensures var s' := Mint(c, s, caller, to, amount).state;
            && s'.reserved == s.reserved && s'.issuance == s.issuance + amount
            && s'.lockdown.Unlocked? && s'.issuance <= s'.lockdown.baseline + c.limit.value
  {
    hide Deposit, Conserved, CanMint, SumMap;
    MintIffWhollyFree(c, s, caller, to, amount);
    WhollyFreeIff(c, s, to, amount);
    DepositSplits(c, s, to, amount);
  }

  /** Nor does it hold for a mint of zero, which a lockdown refuses and a deposit ignores. */
  lemma ZeroMintInLockdown(c: Config, s: State, caller: Account, to: Account)
    requires Watched(c) && Inv(c, s) && PhaseOf(c, s).LockdownActive? && c.minter == Some(caller)
    ensures WhollyFree(c, s, to, 0) && Mint(c, s, caller, to, 0) == Err(MintLimitReached)
  {
    WhollyFreeIff(c, s, to, 0);
    IssuanceFits(s);
    OpenHeadroom(c, s);
  }

  ghost predicate RefusesZero(c: Config, s: State, who: Account) {
    && Watched(c) && Inv(c, s) && PhaseOf(c, s).LockdownActive? && c.minter == Some(who)
    && WhollyFree(c, s, who, 0) && Mint(c, s, who, who, 0) == Err(MintLimitReached)
  }

  lemma ZeroMintInstance()
    ensures exists c: Config, s: State, who: Account :: RefusesZero(c, s, who)
  {
    var c := Config(10, Some(5), {}, Some(1));
    var s := State(20, 2, map[1 := 2], map[], Locked(30));
    assert SumMap(s.free) == 2 by {
      OneBalance(1, 2);
    }
    assert Inv(c, s);
    ZeroMintInLockdown(c, s, 1, 1);
    assert RefusesZero(c, s, 1);
  }

  /** What the gate still lets the minter mint. */
  function MintBudget(c: Config, s: State): int
    requires Watched(c)
  {
    match PhaseOf(c, s)
    case LockdownActive => 0
    case WithinPeriod(baseline) => c.limit.value - SatSub(s.issuance, baseline)
    case _ => c.limit.value
  }

  lemma BudgetIsWhatCanBeMinted(c: Config, s: State, amount: nat)
    requires Watched(c) && Open(c, s) && 0 < amount && s.issuance + amount <= U128_MAX
    ensures CanMint(c, s, amount) <==> amount <= MintBudget(c, s)
  {}

  /**
   * Burning gives mint budget back: all of it exactly when the issuance stays at or above the
   * period's baseline, and never more than the limit.
   */
  lemma BurnRestoresBudget(c: Config, s: State, caller: Account, amount: nat)
    requires Watched(c) && Open(c, s) && PhaseOf(c, s).WithinPeriod?
    requires amount > 0 && Burn(c, s, caller, amount).Ok?
    ensures var s' := Burn(c, s, caller, amount).state;
            && MintBudget(c, s') == Min(c.limit.value, c.limit.value - (s.issuance - PhaseOf(c, s).baseline) + amount)
            && (MintBudget(c, s') == MintBudget(c, s) + amount <==>
                s.issuance - amount >= PhaseOf(c, s).baseline)
            && Headroom(c, s') == Headroom(c, s) + amount
  {}

  /** A mint and a burn of the same amount by the minter cancel out. */
  lemma MintThenBurn(c: Config, s: State, caller: Account, amount: nat)
    requires Watched(c) && Inv(c, s) && Mint(c, s, caller, caller, amount).Ok?
    ensures var minted := Mint(c, s, caller, caller, amount).state;
            var r := Burn(c, minted, caller, amount);
            && r.Ok? && r.state.issuance == s.issuance && r.state.reserved == s.reserved
            && Of(r.state.free, caller) == Of(s.free, caller)
  {
    hide Deposit, Conserved, CanMint, SumMap;
    MintIffWhollyFree(c, s, caller, caller, amount);
    if amount > 0 {
      DepositSplits(c, s, caller, amount);
    } else {
      ZeroDeposit(c, s, caller);
    }
  }

  /* ---- reserved funds ---- */

  /** A governance call that neither lifts the lockdown nor ends it by `end`. */
  predicate KeepsLocked(a: Action, end: Block) {
    !a.DoForceLift? && (a.DoLockdown? ==> a.until > end)
  }

  lemma LockedStep(c: Config, s: State, a: Action, who: Account, end: Block)
    requires Watched(c) && Inv(c, s) && KeepsLocked(a, end) && Step(c, s, a).now <= end
    requires s.lockdown.Locked? && end < s.lockdown.until
    ensures Step(c, s, a).lockdown.Locked? && end < Step(c, s, a).lockdown.until
    ensures Of(s.reserved, who) <= Of(Step(c, s, a).reserved, who)
    ensures Freed(c, s, a) == 0
  {
    hide Deposit, SumMap, Conserved;
    StepClock(c, s, a);
    if Perform(c, s, a).Ok? && Deposits(a) {
      if a.amount > 0 {
        DepositSplits(c, s, a.who, a.amount);
        DepositEffect(c, s, a.who, a.amount);
      } else {
        ZeroDeposit(c, s, a.who);
      }
    }
  }

  /**
   * As long as a lockdown lasts, a run frees no deposit and takes nothing out of anyone's reserve,
   * and no release succeeds; only lifting the lockdown, or setting it to end earlier, changes that.
   */
  lemma {:induction false} NothingLeavesALockdown(c: Config, s: State, actions: seq<Action>, who: Account, end: Block)
    requires Watched(c) && Inv(c, s) && Run(c, s, actions).now <= end
    requires forall i :: 0 <= i < |actions| ==> KeepsLocked(actions[i], end)
    requires s.lockdown.Locked? && end < s.lockdown.until
    ensures var s' := Run(c, s, actions);
            && s'.lockdown.Locked? && end < s'.lockdown.until
            && Of(s.reserved, who) <= Of(s'.reserved, who)
            && Release(s', who) == Err(AssetInLockdown)
    ensures TotalFreed(c, s, actions) == 0
    decreases |actions|
  {
    hide Step, Inv, Freed, KeepsLocked;
    if actions != [] {
      var a, rest := actions[0], actions[1..];
      RunClock(c, Step(c, s, a), rest);
      StepKeeps(c, s, a);
      assert KeepsLocked(a, end);
      LockedStep(c, s, a, who, end);
      NothingLeavesALockdown(c, Step(c, s, a), rest, who, end);
    }
  }

  /**
   * What a deposit over the headroom reserved comes back in full, once, when its lockdown ends;
   * not before.
   */
  lemma ReservedComesBack(c: Config, s: State, who: Account, amount: nat, blocks: Block)
    requires Watched(c) && Inv(c, s) && !PhaseOf(c, s).LockdownActive? && s.now + c.period <= U32_MAX
    requires amount > Headroom(c, s) && Deposit(c, s, who, amount).Ok?
    ensures 0 <= Headroom(c, s)
    ensures var after := Deposit(c, s, who, amount).state.(now := s.now + blocks);
            var r := Release(after, who);
            && Of(after.free, who) == Of(s.free, who) + Headroom(c, s)
            && (r.Ok? <==> blocks >= c.period)
            && (r.Ok? ==> && Of(r.state.free, who) == Of(s.free, who) + Of(s.reserved, who) + amount
                          && Of(r.state.reserved, who) == 0
                          && Release(r.state, who) == Err(InvalidAmount))
  {
    hide Deposit, Conserved;
    OpenHeadroom(c, s);
    DepositSplits(c, s, who, amount);
  }

  lemma OpenHeadroom(c: Config, s: State)
    requires Watched(c) && Open(c, s)
    ensures 0 <= Headroom(c, s)
  {}

  /* ---- a limit lowered during a period ---- */

  /**
   * When the limit was lowered below what an open period already took, the next deposit is
   * asked to reserve more than itself, and goes through exactly when the account can pay.
   */
  lemma LoweredLimit(c: Config, s: State, who: Account, amount: nat)
    requires Watched(c) && PhaseOf(c, s).WithinPeriod? && 0 < amount && s.issuance + amount <= U128_MAX
    requires c.limit.value < s.issuance + amount - PhaseOf(c, s).baseline
    ensures var excess := s.issuance + amount - PhaseOf(c, s).baseline - c.limit.value;
            var r := Deposit(c, s, who, amount);
            && (r.Ok? <==> who !in c.exempt && excess <= Of(s.free, who) + amount)
            && (r.Ok? ==> && Of(r.state.free, who) == Of(s.free, who) + amount - excess
                          && Of(r.state.reserved, who) == Of(s.reserved, who) + excess)
            && (excess <= amount <==> s.issuance <= PhaseOf(c, s).baseline + c.limit.value)
  {}

  lemma OneBalance(who: Account, v: nat)
    ensures SumMap(map[who := v]) == v
  {
    assert map[][who := v] == map[who := v];
    SetSum(map[], who, v);
  }

  /**
   * Such a state exists: within the limit of 10, and after the limit was lowered to 3 a deposit of
   * 1 reserves 6 for an account that can pay and fails for one that cannot.
   */
  lemma LoweredLimitInstance()
    ensures exists c: Config, low: Config, s: State ::
              && Watched(c) && Inv(c, s) && low == c.(limit := Some(3)) && c.limit.value > 3
              && Deposit(low, s, 1, 1).Ok? && Of(Deposit(low, s, 1, 1).state.reserved, 1) == 6
              && Deposit(low, s, 2, 1) == Err(InsufficientBalance)
  {
    var c := Config(10, Some(10), {}, None);
    var low := c.(limit := Some(3));
    var s := State(20, 8, map[1 := 8], map[], Unlocked(15, 0));
    OneBalance(1, 8);
    assert Inv(c, s);
    LoweredLimit(low, s, 1, 1);
    LoweredLimit(low, s, 2, 1);
    assert Deposit(low, s, 2, 1) == Err(InsufficientBalance);
  }
}
