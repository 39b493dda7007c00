/** ERC-20 allowances of the currency precompile for one asset. */
module Allowance {
  import opened Common

  type Account = nat
  type Grant = (Account, Account)

  /** `approved` are the contracts allowed to move anyone's balance. */
  datatype State = State(
    allowances: map<Grant, nat>,
    balances: map<Account, nat>,
    approved: set<Account>)

  datatype Error = InsufficientAllowance | TransferFailed

  datatype Outcome = Ok(state: State) | Err(error: Error)

  function Of(m: map<Account, nat>, a: Account): nat {
    if a in m then m[a] else 0
  }

  /** get_allowance: what is stored. */
  function Stored(s: State, owner: Account, spender: Account): nat {
    if (owner, spender) in s.allowances then s.allowances[(owner, spender)] else 0
  }

  /** allowance: what the precompile answers. */
  function Shown(s: State, owner: Account, spender: Account): nat {
    if spender in s.approved then U128_MAX else Stored(s, owner, spender)
  }

  /** set_allowance: zero is stored as absence. */
  function Set(s: State, owner: Account, spender: Account, amount: nat): State {
    if amount == 0 then s.(allowances := s.allowances - {(owner, spender)})
    else s.(allowances := s.allowances[(owner, spender) := amount])
  }

  function Move(s: State, from: Account, to: Account, amount: nat): Outcome {
    if Of(s.balances, from) < amount then Err(TransferFailed)
    else
      var debited := s.balances[from := Of(s.balances, from) - amount];
      Ok(s.(balances := debited[to := Of(debited, to) + amount]))
  }

  function TransferFrom(s: State, spender: Account, from: Account, to: Account, amount: nat): Outcome {
    if spender in s.approved then Move(s, from, to, amount)
    else
      var allowed := Stored(s, from, spender);
      if allowed < amount then Err(InsufficientAllowance)
      else if allowed == U128_MAX then Move(s, from, to, amount)
      else Move(Set(s, from, spender, SatSub(allowed, amount)), from, to, amount)
  }

  datatype Action =
    | Approve(owner: Account, spender: Account, amount: nat)
    | Spend(spender: Account, from: Account, to: Account, amount: nat)
    | Transfer(from: Account, to: Account, amount: nat)
    | ApproveContract(contract: Account)
    | DisapproveContract(contract: Account)

  /** A failed call reverts, and so does an approval that is not a u128. */
  function Step(s: State, a: Action): State {
    match a
    case Approve(owner, spender, amount) => if amount > U128_MAX then s else Set(s, owner, spender, amount)
    case Spend(spender, from, to, amount) =>
      var r := TransferFrom(s, spender, from, to, amount);
      if r.Ok? then r.state else s
    case Transfer(from, to, amount) =>
      var r := Move(s, from, to, amount);
      if r.Ok? then r.state else s
    case ApproveContract(c) => s.(approved := s.approved + {c})
    case DisapproveContract(c) => s.(approved := s.approved - {c})
  }

  function Run(s: State, actions: seq<Action>): State
    decreases |actions|
  {
    if actions == [] then s else Run(Step(s, actions[0]), actions[1..])
  }

  /* ---- single calls ---- */

  /**
   * A transferFrom goes through exactly if the owner has the amount and the spender is approved or
   * allowed it. The amount then leaves the owner for the receiver, the grant falls by it unless it
   * is unlimited or not needed, and no other balance or grant changes.
   */
  lemma SpendMoves(s: State, spender: Account, from: Account, to: Account, amount: nat)
    ensures var r := TransferFrom(s, spender, from, to, amount);
            && (r.Ok? <==> amount <= Of(s.balances, from) && (spender in s.approved || amount <= Stored(s, from, spender)))
            && (r.Ok? ==>
                  && r.state.approved == s.approved
                  && (forall a :: Of(r.state.balances, a) ==
                                  Of(s.balances, a) - (if a == from then amount else 0) + (if a == to then amount else 0))
                  && (forall o, p :: Stored(r.state, o, p) ==
                                     Stored(s, o, p) - (if o == from && p == spender && p !in s.approved && Stored(s, o, p) != U128_MAX
                                                        then amount else 0)))
  {
    var allowed := Stored(s, from, spender);
    MoveMoves(s, from, to, amount);
    if spender !in s.approved && amount <= allowed && allowed != U128_MAX {
      MoveMoves(Set(s, from, spender, SatSub(allowed, amount)), from, to, amount);
    }
    hide Move;
  }

  lemma MoveMoves(s: State, from: Account, to: Account, amount: nat)
    ensures var r := Move(s, from, to, amount);
            && (r.Ok? <==> amount <= Of(s.balances, from))
            && (r.Ok? ==> && r.state == s.(balances := r.state.balances)
                          && forall a :: Of(r.state.balances, a) ==
                                         Of(s.balances, a) - (if a == from then amount else 0) + (if a == to then amount else 0))
  {}

  /** A plain transfer does the same with the caller's own balance, and touches no grant. */
  lemma TransferMoves(s: State, from: Account, to: Account, amount: nat)
    ensures var s' := Step(s, Transfer(from, to, amount));
            var moved := if amount <= Of(s.balances, from) then amount else 0;
            && s'.allowances == s.allowances && s'.approved == s.approved
            && forall a :: Of(s'.balances, a) ==
                           Of(s.balances, a) - (if a == from then moved else 0) + (if a == to then moved else 0)
  {
    MoveMoves(s, from, to, amount);
    hide Move;
  }

  /* ---- runs ---- */

  /**
   * What an owner granted a spender at their last approval, and by how much the owner's balance
   * fell since then in the spender's hands; a transfer to the owner counts as its amount.
   */
  datatype Tally = Tally(granted: nat, moved: int)

  function Record(s: State, t: Tally, a: Action, owner: Account, spender: Account): Tally {
    match a
    case Approve(o, sp, amount) => if o == owner && sp == spender && amount <= U128_MAX then Tally(amount, 0) else t
    case Spend(sp, from, to, amount) =>
      if from == owner && sp == spender && sp !in s.approved && TransferFrom(s, sp, from, to, amount).Ok?
      then t.(moved := t.moved + if to == owner then amount else Of(s.balances, owner) - Of(Step(s, a).balances, owner))
      else t
    case _ => t
  }

  function Recorded(s: State, t: Tally, actions: seq<Action>, owner: Account, spender: Account): Tally
    decreases |actions|
  {
    if actions == [] then t
    else Recorded(Step(s, actions[0]), Record(s, t, actions[0], owner, spender), actions[1..], owner, spender)
  }

  /** The account balances: spent plus left is granted, except that the maximum is never used up. */
  predicate Balanced(s: State, t: Tally, owner: Account, spender: Account) {
    && 0 <= t.moved
    && if t.granted == U128_MAX then Stored(s, owner, spender) == U128_MAX
       else t.granted < U128_MAX && t.moved + Stored(s, owner, spender) == t.granted
  }

  lemma StepBalances(s: State, t: Tally, a: Action, owner: Account, spender: Account)
    requires Balanced(s, t, owner, spender)
    ensures Balanced(Step(s, a), Record(s, t, a, owner, spender), owner, spender)
  {
    if a.Spend? {
      SpendMoves(s, a.spender, a.from, a.to, a.amount);
      hide TransferFrom;
    }
  }

  lemma {:induction false} RunBalances(s: State, t: Tally, actions: seq<Action>, owner: Account, spender: Account)
    requires Balanced(s, t, owner, spender)
    ensures Balanced(Run(s, actions), Recorded(s, t, actions, owner, spender), owner, spender)
    decreases |actions|
  {
    hide Step, Record, Balanced;
    if actions != [] {
      StepBalances(s, t, actions[0], owner, spender);
      RunBalances(Step(s, actions[0]), Record(s, t, actions[0], owner, spender), actions[1..], owner, spender);
    }
  }

  /**
   * Over every run from an empty ledger of allowances: what the owner's balance lost to a spender
   * since the last approval plus what is left equals the granted amount exactly unless the grant
   * is the u128 maximum and something was moved on it; an approved contract always sees the maximum.
   */
  lemma SpentPlusLeftIsGranted(s: State, actions: seq<Action>, owner: Account, spender: Account)
    requires s.allowances == map[]
    ensures var s' := Run(s, actions);
            var t := Recorded(s, Tally(0, 0), actions, owner, spender);
            && (t.moved + Stored(s', owner, spender) == t.granted <==> t.granted != U128_MAX || t.moved == 0)
            && (t.granted == U128_MAX ==> Stored(s', owner, spender) == U128_MAX)
            && (spender in s'.approved ==> Shown(s', owner, spender) == U128_MAX)
            && (spender !in s'.approved ==> Shown(s', owner, spender) == Stored(s', owner, spender))
  {
    hide Step, Record, Run, Recorded;
    RunBalances(s, Tally(0, 0), actions, owner, spender);
  }

  /** A transfer only moves money. */
  lemma MoveConserves(s: State, from: Account, to: Account, amount: nat)
    requires Move(s, from, to, amount).Ok?
    ensures SumMap(Move(s, from, to, amount).state.balances) == SumMap(s.balances)
  {
    hide SumMap;
    var debited := s.balances[from := Of(s.balances, from) - amount];
    SumMapUpdate(s.balances, from, Of(s.balances, from) - amount);
    SumMapUpdate(debited, to, Of(debited, to) + amount);
  }

  lemma StepConserves(s: State, a: Action)
    ensures SumMap(Step(s, a).balances) == SumMap(s.balances)
  {
    hide SumMap, Move;
    match a
    case Spend(spender, from, to, amount) =>
      if TransferFrom(s, spender, from, to, amount).Ok? {
        var allowed := Stored(s, from, spender);
        if spender in s.approved || allowed == U128_MAX {
          MoveConserves(s, from, to, amount);
        } else {
          MoveConserves(Set(s, from, spender, SatSub(allowed, amount)), from, to, amount);
        }
      }
    case Transfer(from, to, amount) =>
      if Move(s, from, to, amount).Ok? {
        MoveConserves(s, from, to, amount);
      }
    case _ =>
  }

  lemma {:induction false} RunConserves(s: State, actions: seq<Action>)
    ensures SumMap(Run(s, actions).balances) == SumMap(s.balances)
    decreases |actions|
  {
    hide Step, SumMap;
    if actions != [] {
      StepConserves(s, actions[0]);
      RunConserves(Step(s, actions[0]), actions[1..]);
    }
  }

  /** The precompile, updating its storage in place; a revert undoes the allowance already taken. */
  class CurrencyPrecompile {
    var allowances: map<Grant, nat>
    var balances: map<Account, nat>
    var approved: set<Account>

    ghost function View(): State
      reads this
    {
      State(allowances, balances, approved)
    }

    method SetAllowance(owner: Account, spender: Account, amount: nat)
      modifies `allowances
      ensures View() == Set(old(View()), owner, spender, amount)
    {
      if amount == 0 {
        allowances := allowances - {(owner, spender)};
      } else {
        allowances := allowances[(owner, spender) := amount];
      }
    }

    method DoTransferFrom(spender: Account, from: Account, to: Account, amount: nat) returns (done: bool)
      modifies `allowances, `balances
      ensures View() == Step(old(View()), Spend(spender, from, to, amount))
      ensures done == TransferFrom(old(View()), spender, from, to, amount).Ok?
    {
      var before := allowances;
      if spender !in approved {
        var allowed := if (from, spender) in allowances then allowances[(from, spender)] else 0;
        if allowed < amount {
          return false;
        }
        if allowed != U128_MAX {
          SetAllowance(from, spender, SatSub(allowed, amount));
        }
      }
      if Of(balances, from) < amount {
        allowances := before;
        return false;
      }
      balances := balances[from := Of(balances, from) - amount];
      balances := balances[to := Of(balances, to) + amount];
      return true;
    }
  }
}
