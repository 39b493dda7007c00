/** Permit dispatch as the runtime does it: storage and the fee-payer override updated in place. */
module PermitPallet {
  import opened Common
  import opened PermitModel

  class Runtime {
    var stored: Stored
    var payer: Option<Account>

    ghost function View(): World
      reads this
    {
      World(stored, payer)
    }

    method SetFeePayer(who: Account) returns (previous: Option<Account>)
      modifies `payer
      ensures View() == old(View()).(payer := Some(who)) && previous == old(payer)
    {
      previous := payer;
      payer := Some(who);
    }

    method RestoreFeePayer(previous: Option<Account>)
      modifies `payer
      ensures View() == old(View()).(payer := previous)
    {
      payer := previous;
    }

    method FeePayer(from: Account) returns (a: Account)
      ensures a == Payer(View(), from)
    {
      a := from;
      if payer.Some? {
        a := payer.value;
      }
    }

    /** withdraw_fee, as part of the runner. */
    method WithdrawFee(from: Account, fee: nat) returns (ok: bool)
      modifies `stored
      ensures ok <==> fee <= Of(old(stored.funds), Payer(old(View()), from))
      ensures ok ==> View() == old(View()).(stored := Take(old(stored), Payer(old(View()), from), fee))
      ensures !ok ==> View() == old(View())
    {
      var who := FeePayer(from);
      if Of(stored.funds, who) < fee {
        return false;
      }
      stored := stored.(funds := stored.funds[who := Of(stored.funds, who) - fee]);
      return true;
    }

    /** correct_and_deposit_fee. */
    method RefundFee(from: Account, run: EvmRun)
      modifies `stored
      ensures View() == Settle(old(View()), from, run)
    {
      var who := FeePayer(from);
      var refund := 0;
      if run.refundable {
        refund := SatSub(run.fee, run.used);
      }
      stored := stored.(funds := stored.funds[who := Of(stored.funds, who) + refund]);
      stored := stored.(collected := stored.collected + (run.fee - refund));
    }

    /** Runner::call; refused, it leaves everything as it was. */
    method CallRunner(from: Account, run: EvmRun, inner: Calls) returns (ok: bool)
      modifies this
      ensures ok == RunEvm(old(View()), from, run, inner).Some?
      ensures View() == if ok then RunEvm(old(View()), from, run, inner).value else old(View())
      decreases inner, 1
    {
      hide Execute;
      if run.rejected {
        return false;
      }
      ok := WithdrawFee(from, run.fee);
      if !ok {
        return;
      }
      var snapshot := stored;
      RunAll(inner);
      if run.reverts {
        stored := snapshot;
      }
      RefundFee(from, run);
    }

    method DispatchPermit(p: Permit, run: EvmRun, inner: Calls) returns (outcome: Outcome)
      modifies this
      ensures Dispatched(View(), outcome) == Dispatch(old(View()), p, run, inner)
      decreases inner, 2
    {
      hide RunEvm;
      var start := |stored.commits|;
      var ok := CallRunner(p.from, run, inner);
      if !ok {
        return RunnerError;
      }
      var nonce := Of(stored.nonces, p.from);
      stored := stored.(nonces := stored.nonces[p.from := nonce + 1], commits := stored.commits + [Commit(p, start)]);
      if run.nonceMoved {
        return NonceInvariantViolated;
      }
      return if run.reverts then CallExecutionError else Succeeded;
    }

    method RunSigned(signer: Account, p: Permit, run: EvmRun, inner: Calls) returns (ok: bool)
      modifies this
      ensures Ran(View(), ok) == Execute(old(View()), Signed(signer, p, run, inner))
      decreases inner, 3
    {
      hide Dispatch;
      if stored.paused {
        return false;
      }
      var snapshot := stored;
      var previous := SetFeePayer(signer);
      if !Valid(stored, p) {
        RestoreFeePayer(previous);
        return false;
      }
      var outcome := DispatchPermit(p, run, inner);
      RestoreFeePayer(previous);
      if outcome.RunnerError? {
        stored := snapshot;
        return false;
      }
      return true;
    }

    method RunPrecompiled(p: Permit, affordable: bool, reverts: bool, inner: Calls) returns (ok: bool)
      modifies this
      ensures Ran(View(), ok) == Execute(old(View()), Precompiled(p, affordable, reverts, inner))
      decreases inner, 3
    {
      hide ExecuteAll;
      if !affordable || !Valid(stored, p) {
        return false;
      }
      var snapshot := stored;
      stored := stored.(nonces := stored.nonces[p.from := Of(stored.nonces, p.from) + 1],
                        commits := stored.commits + [Commit(p, |stored.commits|)]);
      RunAll(inner);
      if reverts {
        stored := snapshot;
      }
      return !reverts;
    }

    /** dispatch_with_fee_payer. */
    method RunScope(signer: Account, scoped: Call) returns (ok: bool)
      modifies this
      ensures Ran(View(), ok) == Execute(old(View()), FeePayerScope(signer, scoped))
      decreases scoped, 1
    {
      var snapshot := stored;
      var previous := SetFeePayer(signer);
      ok := RunCall(scoped);
      RestoreFeePayer(previous);
      if !ok {
        stored := snapshot;
      }
    }

    method RunCall(c: Call) returns (ok: bool)
      modifies this
      ensures Ran(View(), ok) == Execute(old(View()), c)
      decreases c, 0
    {
      hide Dispatch, RunEvm, ExecuteAll;
      match c {
        case Signed(signer, p, run, inner) => ok := RunSigned(signer, p, run, inner);
        case Precompiled(p, affordable, reverts, inner) => ok := RunPrecompiled(p, affordable, reverts, inner);
        case EvmCall(source, run, inner) => ok := CallRunner(source, run, inner);
        case FeePayerScope(signer, scoped) => ok := RunScope(signer, scoped);
        case Transfer(from, to, amount) =>
          ok := Of(stored.funds, from) >= amount;
          if ok {
            stored := stored.(funds := stored.funds[from := Of(stored.funds, from) - amount]);
            stored := stored.(funds := stored.funds[to := Of(stored.funds, to) + amount]);
          }
        case Unrelated(b) => ok := b;
      }
    }

    method RunAll(cs: Calls)
      modifies this
      ensures View() == ExecuteAll(old(View()), cs)
      decreases cs, 0
    {
      hide Execute;
      var left := cs;
      while left.Next?
        invariant ExecuteAll(View(), left) == ExecuteAll(old(View()), cs)
        invariant left == cs || left < cs
        decreases left
      {
        var _ := RunCall(left.first);
        left := left.rest;
      }
    }

    method RunUnsigned(p: Permit, run: EvmRun, inner: Calls) returns (ok: bool)
      modifies this
      ensures Ran(View(), ok) == Unsigned(old(View()), p, run, inner)
    {
      hide Dispatch;
      if stored.paused {
        return false;
      }
      if !Valid(stored, p) {
        stored := stored.(paused := true);
        return true;
      }
      var outcome := DispatchPermit(p, run, inner);
      if outcome.RunnerError? {
        stored := stored.(paused := true);
      }
      return true;
    }

    /** The dry run: everything it stored is thrown away. */
    method Validate(p: Permit, run: EvmRun, inner: Calls) returns (ok: bool)
      modifies this
      ensures Ran(View(), ok) == ValidateUnsigned(old(View()), p, run, inner)
    {
      hide Dispatch;
      if !Valid(stored, p) {
        return false;
      }
      var snapshot := stored;
      var outcome := DispatchPermit(p, run, inner);
      stored := snapshot;
      return outcome.Succeeded?;
    }
  }
}
