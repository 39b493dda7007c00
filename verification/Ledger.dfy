/**
 * One account's balance of one asset, as the lock-and-reserve tests specify it: the
 * spendable floor is `frozen - reserved`, while a new reserve must leave `free >= frozen`.
 * `dca` is the reserve named `dcaorder`; `other` is every other reserve of the account.
 */
module Ledger {
  import opened Common

  datatype Balance = Balance(free: nat, dca: nat, other: nat, frozen: nat)

  const EMPTY := Balance(0, 0, 0, 0)

  function Reserved(b: Balance): nat {
    b.dca + b.other
  }

  function Total(b: Balance): nat {
    b.free + Reserved(b)
  }

  /** The part of the free balance that the lock still holds back. */
  function Floor(b: Balance): nat {
    SatSub(b.frozen, Reserved(b))
  }

  function Spendable(b: Balance): nat {
    SatSub(b.free, Floor(b))
  }

  /** The lock is backed by the account's own funds, free or reserved. */
  predicate Covered(b: Balance) {
    b.frozen <= Total(b)
  }

  function Reserve(b: Balance, amount: nat): Option<Balance> {
    if amount <= b.free && b.frozen <= b.free - amount
    then Some(b.(free := b.free - amount, dca := b.dca + amount))
    else None
  }

  function ReserveOther(b: Balance, amount: nat): Option<Balance> {
    if amount <= b.free && b.frozen <= b.free - amount
    then Some(b.(free := b.free - amount, other := b.other + amount))
    else None
  }

  /** Unreserving is capped at what the named reserve holds. */
  function Unreserve(b: Balance, amount: nat): Balance {
    var actual: nat := Min(amount, b.dca);
    b.(free := b.free + actual, dca := b.dca - actual)
  }

  function UnreserveOther(b: Balance, amount: nat): Balance {
    var actual: nat := Min(amount, b.other);
    b.(free := b.free + actual, other := b.other - actual)
  }

  function Withdraw(b: Balance, amount: nat): Option<Balance> {
    if amount <= Spendable(b) then Some(b.(free := b.free - amount)) else None
  }

  /** Unreserving and spending within the limit never uncover a lock. */
  lemma CoverIsKept(b: Balance, amount: nat)
    requires Covered(b)
    ensures Covered(Unreserve(b, amount))
    ensures Withdraw(b, amount).Some? ==> Covered(Withdraw(b, amount).value)
  {}

  datatype Op =
    | DoReserve(amount: nat)
    | DoReserveOther(amount: nat)
    | DoUnreserve(amount: nat)
    | DoUnreserveOther(amount: nat)
    | DoSpend(amount: nat)

  /** One operation; a refused one leaves the balance alone. */
  function Apply(b: Balance, op: Op): Balance {
    var attempt :=
      match op
      case DoReserve(n) => Reserve(b, n)
      case DoReserveOther(n) => ReserveOther(b, n)
      case DoUnreserve(n) => Some(Unreserve(b, n))
      case DoUnreserveOther(n) => Some(UnreserveOther(b, n))
      case DoSpend(n) => Withdraw(b, n);
    if attempt.Some? then attempt.value else b
  }

  function Run(b: Balance, ops: seq<Op>): Balance
    decreases |ops|
  {
    if ops == [] then b else Run(Apply(b, ops[0]), ops[1..])
  }

  /** What leaves the account over a run: the amounts of the accepted spends. */
  function Outflow(b: Balance, ops: seq<Op>): nat
    decreases |ops|
  {
    if ops == [] then 0
    else
      (if ops[0].DoSpend? && ops[0].amount <= Spendable(b) then ops[0].amount else 0)
      + Outflow(Apply(b, ops[0]), ops[1..])
  }

  /**
   * No interleaving of reserving, unreserving and spending uncovers the lock; funds only
   * leave through spends, and never more of them than the total above the lock.
   */
  lemma {:induction false} RunKeepsCover(b: Balance, ops: seq<Op>)
    requires Covered(b)
    ensures Covered(Run(b, ops)) && Run(b, ops).frozen == b.frozen
    ensures Total(Run(b, ops)) + Outflow(b, ops) == Total(b)
    ensures Outflow(b, ops) <= Total(b) - b.frozen
    decreases |ops|
  {
    if ops != [] {
      RunKeepsCover(Apply(b, ops[0]), ops[1..]);
    }
  }

  /** The bound on the outflow is reached: everything above the lock can leave. */
  lemma OutflowBoundIsReached(b: Balance)
    requires Covered(b)
    ensures exists ops :: Outflow(b, ops) == Total(b) - b.frozen
  {
    var b1 := Unreserve(b, b.dca);
    var b2 := UnreserveOther(b1, b1.other);
    var ops := [DoUnreserve(b.dca), DoUnreserveOther(b1.other), DoSpend(Total(b) - b.frozen)];
    assert ops[1..] == [DoUnreserveOther(b1.other), DoSpend(Total(b) - b.frozen)];
    assert ops[1..][1..] == [DoSpend(Total(b) - b.frozen)];
    assert Outflow(b2, [DoSpend(Total(b) - b.frozen)]) == Total(b) - b.frozen;
    assert Outflow(b, ops) == Total(b) - b.frozen;
  }

  /**
   * Spending all that is spendable leaves the free balance exactly at the floor, that is
   * below the lock by the reserved amount (or at zero), and nothing more is spendable.
   */
  lemma SpendingToTheFloor(b: Balance)
    requires Covered(b)
    ensures var after := Apply(b, DoSpend(Spendable(b)));
            after.free == Floor(b) && Spendable(after) == 0 && Covered(after)
            && SatSub(b.frozen, after.free) == Min(b.frozen, Reserved(b))
            && forall n: nat | n > 0 :: Apply(after, DoSpend(n)) == after
  {
    assert b.free >= Floor(b);
  }

  /**
   * Where spending has consumed the free balance behind a lock, every unreserved unit is
   * frozen again at once: the owner's own reserve funds no trade.
   */
  lemma UnreservedUnitsRefreeze(b: Balance, amount: nat, n: nat)
    requires Total(b) == b.frozen && 0 < n
    ensures Spendable(Unreserve(b, amount)) == 0
    ensures Withdraw(Unreserve(b, amount), n).None?
  {
    assert Total(Unreserve(b, amount)) == b.frozen;
  }
}
