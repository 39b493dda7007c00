/**
 * Dispatch of pre-signed EVM permits as functions: unsigned, signed by a paymaster, or through
 * the call-permit precompile, with calls nested inside calls to any depth.
 */
module PermitModel {
  import opened Common

  type Account = nat

  /**
   * A permit, told apart by `digest`. Its signature recovers to `from` only for the nonce it was
   * signed with, and only if it is `genuine`.
   */
  datatype Permit = Permit(from: Account, nonce: nat, deadline: nat, genuine: bool, digest: nat)

  /** A permit that took its nonce; `start` is the number of commits made before it began. */
  datatype Commit = Commit(permit: Permit, start: nat)

  /** Transactional storage: undone when a call fails. `now` is in milliseconds. */
  datatype Stored = Stored(
    now: nat,
    nonces: map<Account, nat>,
    paused: bool,
    funds: map<Account, nat>,
    collected: nat,
    commits: seq<Commit>)

  /** `payer` is the fee-payer override; it is not part of the transactional storage. */
  datatype World = World(stored: Stored, payer: Option<Account>)

  /**
   * What the EVM run decides: whether the runner rejects the call before charging, the fee taken
   * up front and the fee used, whether the refund could be credited, how it ended, and whether
   * the source's account nonce moved.
   */
  datatype EvmRun = EvmRun(rejected: bool, fee: nat, used: nat, refundable: bool, reverts: bool, nonceMoved: bool)

  datatype Call =
    | Signed(signer: Account, permit: Permit, run: EvmRun, inner: Calls)
    | Precompiled(permit: Permit, affordable: bool, reverts: bool, inner: Calls)
    | EvmCall(source: Account, run: EvmRun, inner: Calls)
    | FeePayerScope(signer: Account, scoped: Call)
    | Transfer(from: Account, to: Account, amount: nat)
    | Unrelated(ok: bool)

  datatype Calls = Done | Next(first: Call, rest: Calls)

  datatype Ran = Ran(world: World, ok: bool)

  datatype Outcome = RunnerError | NonceInvariantViolated | CallExecutionError | Succeeded

  datatype Dispatched = Dispatched(world: World, outcome: Outcome)

  function Of(m: map<Account, nat>, a: Account): nat {
    if a in m then m[a] else 0
  }

  /** validate_permit. */
  predicate Valid(s: Stored, p: Permit) {
    p.deadline >= s.now / 1000 && p.genuine && p.nonce == Of(s.nonces, p.from)
  }

  function Payer(w: World, from: Account): Account {
    if w.payer.Some? then w.payer.value else from
  }

  function Take(s: Stored, a: Account, amount: nat): Stored
    requires amount <= Of(s.funds, a)
  {
    s.(funds := s.funds[a := Of(s.funds, a) - amount])
  }

  function Give(s: Stored, a: Account, amount: nat): Stored {
    s.(funds := s.funds[a := Of(s.funds, a) + amount])
  }

  function Refund(run: EvmRun): nat {
    if run.refundable then SatSub(run.fee, run.used) else 0
  }

  /** correct_and_deposit_fee: the refund goes to whoever is the payer now, the rest is collected. */
  function Settle(w: World, from: Account, run: EvmRun): World {
    var s := Give(w.stored, Payer(w, from), Refund(run));
    w.(stored := s.(collected := s.collected + (run.fee - Refund(run))))
  }

  function Consume(s: Stored, p: Permit, start: nat): Stored {
    s.(nonces := s.nonces[p.from := Of(s.nonces, p.from) + 1], commits := s.commits + [Commit(p, start)])
  }

  /** A run of the EVM: charge, execute, undo what a revert undoes, settle; None when the runner refuses. */
  function RunEvm(w: World, from: Account, run: EvmRun, inner: Calls): Option<World>
    decreases inner, 1
  {
    if run.rejected || Of(w.stored.funds, Payer(w, from)) < run.fee then None
    else
      var charged := w.(stored := Take(w.stored, Payer(w, from), run.fee));
      var ran := ExecuteAll(charged, inner);
      var kept := if run.reverts then World(charged.stored, ran.payer) else ran;
      Some(Settle(kept, from, run))
  }

  /** EvmPermit::dispatch_permit: the nonce is read again after the run, then advanced. */
  function Dispatch(w: World, p: Permit, run: EvmRun, inner: Calls): Dispatched
    decreases inner, 2
  {
    var settled := RunEvm(w, p.from, run, inner);
    if settled.None? then Dispatched(w, RunnerError)
    else
      Dispatched(
        settled.value.(stored := Consume(settled.value.stored, p, |w.stored.commits|)),
        if run.nonceMoved then NonceInvariantViolated
        else if run.reverts then CallExecutionError
        else Succeeded)
  }

  /** A runtime call; the result says whether it returned Ok. */
  function Execute(w: World, c: Call): Ran
    decreases c
  {
    match c
    case Signed(signer, p, run, inner) =>
      if w.stored.paused then Ran(w, false)
      else
        var sponsored := w.(payer := Some(signer));
        if !Valid(sponsored.stored, p) then Ran(sponsored.(payer := w.payer), false)
        else
          var d := Dispatch(sponsored, p, run, inner);
          if d.outcome.RunnerError? then Ran(World(w.stored, w.payer), false)
          else Ran(d.world.(payer := w.payer), true)
    case Precompiled(p, affordable, reverts, inner) =>
      if !affordable || !Valid(w.stored, p) then Ran(w, false)
      else
        var ran := ExecuteAll(w.(stored := Consume(w.stored, p, |w.stored.commits|)), inner);
        if reverts then Ran(World(w.stored, ran.payer), false) else Ran(ran, true)
    case EvmCall(source, run, inner) =>
      var settled := RunEvm(w, source, run, inner);
      if settled.None? then Ran(w, false) else Ran(settled.value, true)
    case FeePayerScope(signer, scoped) =>
      var ran := Execute(w.(payer := Some(signer)), scoped);
      if ran.ok then Ran(ran.world.(payer := w.payer), true) else Ran(World(w.stored, w.payer), false)
    case Transfer(from, to, amount) =>
      if Of(w.stored.funds, from) < amount then Ran(w, false)
      else Ran(w.(stored := Give(Take(w.stored, from, amount), to, amount)), true)
    case Unrelated(ok) => Ran(w, ok)
  }

  function ExecuteAll(w: World, cs: Calls): World
    decreases cs, 0
  {
    match cs
    case Done => w
    case Next(first, rest) => ExecuteAll(Execute(w, first).world, rest)
  }

  /** The unsigned extrinsic: an invalid permit and a runner error pause the call; the rest commits. */
  function Unsigned(w: World, p: Permit, run: EvmRun, inner: Calls): Ran {
    if w.stored.paused then Ran(w, false)
    else if !Valid(w.stored, p) then Ran(w.(stored := w.stored.(paused := true)), true)
    else
      var d := Dispatch(w, p, run, inner);
      if d.outcome.RunnerError? then Ran(d.world.(stored := d.world.stored.(paused := true)), true)
      else Ran(d.world, true)
  }

  /** validate_unsigned: a dry run, rolled back, that ignores the pause of the call itself. */
  function ValidateUnsigned(w: World, p: Permit, run: EvmRun, inner: Calls): Ran {
    if !Valid(w.stored, p) then Ran(w, false)
    else
      var d := Dispatch(w, p, run, inner);
      Ran(World(w.stored, d.world.payer), d.outcome.Succeeded?)
  }

  /** What reaches the chain: extrinsics, the clock, and the authority that pauses and resumes. */
  datatype Submission =
    | Extrinsic(call: Call)
    | UnsignedPermit(permit: Permit, run: EvmRun, inner: Calls)
    | Clock(now: nat)
    | SetPaused(paused: bool)

  function Submit(w: World, x: Submission): World {
    match x
    case Extrinsic(call) =>
      var ran := Execute(w, call);
      if ran.ok then ran.world else World(w.stored, ran.world.payer)
    case UnsignedPermit(p, run, inner) => Unsigned(w, p, run, inner).world
    case Clock(now) => w.(stored := w.stored.(now := now))
    case SetPaused(b) => w.(stored := w.stored.(paused := b))
  }

  function SubmitAll(w: World, xs: seq<Submission>): World
    decreases |xs|
  {
    if xs == [] then w else SubmitAll(Submit(w, xs[0]), xs[1..])
  }
}
