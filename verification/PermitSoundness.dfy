/** Only genuine, timely permits for the current nonce ever commit; and what the plain calls do. */
module PermitSoundness {
  import opened Common
  import opened PermitModel
  import opened PermitLaws
  import opened PermitTheorems

  /* ---- what is refused ---- */

  /**
   * A permit that is forged, late or for another nonce changes nothing on any path: the signed and
   * the precompile dispatch fail, the unsigned one only pauses the call, and pre-validation refuses.
   */
  lemma DishonouredChangesNothing(w: World, p: Permit, run: EvmRun, inner: Calls, signer: Account, affordable: bool, reverts: bool)
    requires !Honourable(p, w.stored.now, Of(w.stored.nonces, p.from))
    ensures Execute(w, Signed(signer, p, run, inner)) == Ran(w, false)
    ensures Execute(w, Precompiled(p, affordable, reverts, inner)) == Ran(w, false)
    ensures Unsigned(w, p, run, inner).world == w.(stored := w.stored.(paused := true))
    ensures ValidateUnsigned(w, p, run, inner) == Ran(w, false)
  {
    hide Dispatch, ExecuteAll;
  }

  /** The precompile commits exactly an affordable, honourable permit whose call does not revert; otherwise nothing changes. */
  lemma PrecompiledCommitsIff(base: map<Account, nat>, w: World, p: Permit, affordable: bool, reverts: bool, inner: Calls)
    ensures var r := Execute(w, Precompiled(p, affordable, reverts, inner));
            && (r.ok <==> affordable && !reverts && Honourable(p, w.stored.now, Of(w.stored.nonces, p.from)))
            && (!r.ok ==> r.world == w)
            && (r.ok ==> w.stored.commits + [Commit(p, |w.stored.commits|)] <= r.world.stored.commits)
  {
    hide ExecuteAll, Good, Wealth;
    AllKeep(base, w.(stored := Consume(w.stored, p, |w.stored.commits|)), inner);
  }

  /* ---- every commit ---- */

  /** Every commit from `from` on was genuine and in time at `now`. */
  ghost predicate Sound(cs: seq<Commit>, from: nat, now: nat) {
    forall i :: from <= i < |cs| ==> cs[i].permit.genuine && now / 1000 <= cs[i].permit.deadline
  }

  lemma SoundRun(w: World, source: Account, run: EvmRun, inner: Calls, from: nat)
    requires Sound(w.stored.commits, from, w.stored.now) && RunEvm(w, source, run, inner).Some?
    ensures var s' := RunEvm(w, source, run, inner).value.stored; s'.now == w.stored.now && Sound(s'.commits, from, w.stored.now)
    decreases inner, 1
  {
    hide Execute, ExecuteAll, Sound;
    SoundCalls(w.(stored := Take(w.stored, Payer(w, source), run.fee)), inner, from);
  }

  lemma SoundDispatch(w: World, p: Permit, run: EvmRun, inner: Calls, from: nat)
    requires Sound(w.stored.commits, from, w.stored.now) && p.genuine && w.stored.now / 1000 <= p.deadline
    ensures var s' := Dispatch(w, p, run, inner).world.stored; s'.now == w.stored.now && Sound(s'.commits, from, w.stored.now)
    decreases inner, 2
  {
    hide RunEvm;
    if RunEvm(w, p.from, run, inner).Some? {
      SoundRun(w, p.from, run, inner, from);
    }
  }

  lemma {:induction false} SoundCall(w: World, c: Call, from: nat)
    requires Sound(w.stored.commits, from, w.stored.now)
    ensures var s' := Execute(w, c).world.stored; s'.now == w.stored.now && Sound(s'.commits, from, w.stored.now)
    decreases c
  {
    hide Dispatch, RunEvm, ExecuteAll;
    match c
    case Signed(signer, p, run, inner) =>
      if Valid(w.stored, p) {
        SoundDispatch(w.(payer := Some(signer)), p, run, inner, from);
      }
    case Precompiled(p, _, _, inner) =>
      if Valid(w.stored, p) {
        SoundCalls(w.(stored := Consume(w.stored, p, |w.stored.commits|)), inner, from);
      }
    case EvmCall(source, run, inner) =>
      if RunEvm(w, source, run, inner).Some? {
        SoundRun(w, source, run, inner, from);
      }
    case FeePayerScope(signer, scoped) => SoundCall(w.(payer := Some(signer)), scoped, from);
    case _ =>
  }

  lemma {:induction false} SoundCalls(w: World, cs: Calls, from: nat)
    requires Sound(w.stored.commits, from, w.stored.now)
    ensures var s' := ExecuteAll(w, cs).stored; s'.now == w.stored.now && Sound(s'.commits, from, w.stored.now)
    decreases cs, 0
  {
    hide Execute, Sound;
    if cs.Next? {
      SoundCall(w, cs.first, from);
      SoundCalls(Execute(w, cs.first).world, cs.rest, from);
    }
  }

  lemma SoundSubmission(w: World, x: Submission)
    ensures Sound(Submit(w, x).stored.commits, |w.stored.commits|, w.stored.now)
  {
    hide Execute, Dispatch;
    match x
    case Extrinsic(call) => SoundCall(w, call, |w.stored.commits|);
    case UnsignedPermit(p, run, inner) =>
      if Valid(w.stored, p) {
        SoundDispatch(w, p, run, inner, |w.stored.commits|);
      }
    case _ =>
  }

  /** The commit was for a permit its account signed, in time at `now`, for the nonce that stood when it began. */
  ghost predicate Deserved(base: map<Account, nat>, cs: seq<Commit>, i: nat, now: nat)
    requires i < |cs|
  {
    var e := cs[i];
    e.start <= i && Honourable(e.permit, now, Of(base, e.permit.from) + Count(cs[..e.start], e.permit.from))
  }

  /**
   * Whatever is submitted, with everything nested in it: every commit it adds is of a genuine
   * permit that was in time and for the nonce that stood when its dispatch began.
   */
  lemma CommitsAreDeserved(base: map<Account, nat>, w: World, x: Submission, i: nat)
    requires Good(base, w.stored) && |w.stored.commits| <= i < |Submit(w, x).stored.commits|
    ensures Deserved(base, Submit(w, x).stored.commits, i, w.stored.now)
  {
    hide Submit, Wealth, NoncesCount, Count;
    SoundSubmission(w, x);
    SubmitKeeps(base, w, x);
    assert StampedAt(base, Submit(w, x).stored.commits, i);
  }

  /** Over every run, every commit is of a permit that its account signed. */
  lemma {:induction false} RunCommitsAreGenuine(w: World, xs: seq<Submission>, i: nat)
    requires forall j :: 0 <= j < |w.stored.commits| ==> w.stored.commits[j].permit.genuine
    requires i < |SubmitAll(w, xs).stored.commits|
    ensures SubmitAll(w, xs).stored.commits[i].permit.genuine
    decreases |xs|
  {
    hide Submit, Good, Wealth;
    if xs != [] {
      var w' := Submit(w, xs[0]);
      SoundSubmission(w, xs[0]);
      SubmitKeeps(map[], w, xs[0]);
      forall j | 0 <= j < |w'.stored.commits| ensures w'.stored.commits[j].permit.genuine {
        if j < |w.stored.commits| {
          assert w'.stored.commits[j] == w.stored.commits[j];
        }
      }
      RunCommitsAreGenuine(w', xs[1..], i);
    }
  }

  /* ---- plain calls ---- */

  /** A transfer takes the amount from its sender and gives it to its receiver, or fails for want of funds. */
  lemma TransferMoves(w: World, from: Account, to: Account, amount: nat)
    ensures var r := Execute(w, Transfer(from, to, amount));
            && (r.ok <==> amount <= Of(w.stored.funds, from))
            && r.world == w.(stored := w.stored.(funds := r.world.stored.funds))
            && forall a :: Of(r.world.stored.funds, a) ==
                           Of(w.stored.funds, a) - (if r.ok && a == from then amount else 0) + (if r.ok && a == to then amount else 0)
  {}

  function Append(cs: Calls, ds: Calls): Calls {
    match cs
    case Done => ds
    case Next(first, rest) => Next(first, Append(rest, ds))
  }

  /** Nested calls run in order, each in the world the ones before it left. */
  lemma {:induction false} CallsRunInOrder(w: World, cs: Calls, ds: Calls, c: Call)
    ensures ExecuteAll(w, Append(cs, ds)) == ExecuteAll(ExecuteAll(w, cs), ds)
    ensures ExecuteAll(w, Append(cs, Next(c, Done))) == Execute(ExecuteAll(w, cs), c).world
    decreases cs
  {
    hide Execute;
    match cs
    case Done => SingleCall(w, c);
    case Next(first, rest) => CallsRunInOrder(Execute(w, first).world, rest, ds, c);
  }

  /** The innermost fee payer counts: a scope around a sponsored dispatch or around another scope makes no difference. */
  lemma InnermostPayerCounts(w: World, outer: Account, c: Call)
    requires c.Signed? || c.FeePayerScope?
    ensures Execute(w, FeePayerScope(outer, c)) == if Execute(w, c).ok then Execute(w, c) else Ran(w, false)
  {
    hide Dispatch, ExecuteAll;
  }
}
