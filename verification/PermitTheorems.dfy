/** The guarantees of permit dispatch over every nesting of calls and every run of submissions. */
module PermitTheorems {
  import opened Common
  import opened PermitModel
  import opened PermitLaws

  /* ---- the fee-payer override ---- */

  /** However calls nest and however they end, each leaves the override as it found it. */
  lemma OverrideIsRestored(w: World, c: Call)
    ensures Execute(w, c).world.payer == w.payer
  {
    hide Execute, Good, Wealth;
    CallKeeps(map[], w, c);
  }

  /** What a run costs its payer: what it used, at most the fee, and all of it if no refund can be credited. */
  function Cost(run: EvmRun): nat {
    if run.refundable && run.used <= run.fee then run.used else run.fee
  }

  /** The account charged up front is the account refunded; nobody else pays or is paid for the run. */
  lemma PayerIsRefunded(w: World, from: Account, run: EvmRun, inner: Calls)
    requires RunEvm(w, from, run, inner).Some?
    ensures var payer := if w.payer.Some? then w.payer.value else from;
            run.fee <= Of(w.stored.funds, payer) &&
            var charged := w.(stored := Take(w.stored, payer, run.fee));
            var inside := if run.reverts then charged.stored else ExecuteAll(charged, inner).stored;
            var after := RunEvm(w, from, run, inner).value.stored;
            && (forall a :: Of(after.funds, a) == Of(inside.funds, a) + if a == payer then run.fee - Cost(run) else 0)
            && after.collected == inside.collected + Cost(run)
  {
    hide Execute, ExecuteAll, Good, Wealth;
    AllKeep(map[], w.(stored := Take(w.stored, Payer(w, from), run.fee)), inner);
  }

  /** The run inside a dispatch is such a run, and its permit's nonce and commit are all it adds. */
  lemma DispatchPays(w: World, p: Permit, run: EvmRun, inner: Calls)
    requires !Dispatch(w, p, run, inner).outcome.RunnerError?
    ensures RunEvm(w, p.from, run, inner).Some?
    ensures var s, s' := RunEvm(w, p.from, run, inner).value.stored, Dispatch(w, p, run, inner).world.stored;
            s'.funds == s.funds && s'.collected == s.collected
  {
    hide RunEvm;
  }

  /** Who pays for a run that reverts pays what it used, and no other balance changes. */
  lemma RevertCosts(w: World, from: Account, run: EvmRun, inner: Calls, a: Account)
    requires run.reverts && RunEvm(w, from, run, inner).Some?
    ensures var payer := if w.payer.Some? then w.payer.value else from;
            var after := RunEvm(w, from, run, inner).value.stored;
            && Of(after.funds, a) == Of(w.stored.funds, a) - (if a == payer then Cost(run) else 0)
            && after.collected == w.stored.collected + Cost(run)
  {
    hide RunEvm, ExecuteAll;
    PayerIsRefunded(w, from, run, inner);
  }

  /** A sponsored run that reverts costs its sponsor the fee used and touches no other balance. */
  lemma SponsorPaysForRevert(w: World, signer: Account, p: Permit, run: EvmRun, inner: Calls, a: Account)
    requires run.reverts && Execute(w, Signed(signer, p, run, inner)).ok
    ensures var after := Execute(w, Signed(signer, p, run, inner)).world.stored;
            && Of(after.funds, a) == Of(w.stored.funds, a) - (if a == signer then Cost(run) else 0)
            && after.collected == w.stored.collected + Cost(run)
  {
    hide Dispatch, RunEvm;
    DispatchPays(w.(payer := Some(signer)), p, run, inner);
    RevertCosts(w.(payer := Some(signer)), p.from, run, inner, a);
  }

  /** A call under another fee payer that runs the EVM and reverts costs that payer, not the source. */
  lemma ScopePaysForRevert(w: World, signer: Account, source: Account, run: EvmRun, inner: Calls, a: Account)
    requires run.reverts && Execute(w, FeePayerScope(signer, EvmCall(source, run, inner))).ok
    ensures var after := Execute(w, FeePayerScope(signer, EvmCall(source, run, inner))).world.stored;
            && Of(after.funds, a) == Of(w.stored.funds, a) - (if a == signer then Cost(run) else 0)
            && after.collected == w.stored.collected + Cost(run)
  {
    hide RunEvm;
    RevertCosts(w.(payer := Some(signer)), source, run, inner, a);
  }

  /** Without an override the permit's own account pays. */
  lemma UnsignedPaysItself(w: World, p: Permit, run: EvmRun, inner: Calls, a: Account)
    requires w.payer.None? && run.reverts && !Dispatch(w, p, run, inner).outcome.RunnerError?
    ensures var after := Dispatch(w, p, run, inner).world.stored;
            && Of(after.funds, a) == Of(w.stored.funds, a) - (if a == p.from then Cost(run) else 0)
            && after.collected == w.stored.collected + Cost(run)
  {
    hide RunEvm;
    DispatchPays(w, p, run, inner);
    RevertCosts(w, p.from, run, inner, a);
  }

  /* ---- what commits ---- */

  /** A permit that its account signed, for this nonce, and that is still in time. */
  predicate Honourable(p: Permit, now: nat, nonce: nat) {
    p.genuine && now / 1000 <= p.deadline && p.nonce == nonce
  }

  /** The runner takes the run, and whoever pays can pay the fee. */
  predicate RunnerAccepts(w: World, p: Permit, run: EvmRun) {
    !run.rejected && run.fee <= Of(w.stored.funds, if w.payer.Some? then w.payer.value else p.from)
  }

  lemma DispatchOutcome(w: World, p: Permit, run: EvmRun, inner: Calls)
    ensures Dispatch(w, p, run, inner).outcome.RunnerError? <==> !RunnerAccepts(w, p, run)
    ensures Dispatch(w, p, run, inner).outcome.RunnerError? ==> Dispatch(w, p, run, inner).world == w
  {
    hide Execute, ExecuteAll;
  }

  /**
   * A signed dispatch commits exactly when the call is not paused, the permit is genuine, in time
   * and for the current nonce, and the runner takes it, whether or not the inner call then
   * reverts; refused, it changes nothing.
   * Committed, it advances every nonce by the commits it made, its own among them.
   */
  lemma SignedCommitsIff(base: map<Account, nat>, w: World, signer: Account, p: Permit, run: EvmRun, inner: Calls)
    requires Good(base, w.stored)
    ensures var r := Execute(w, Signed(signer, p, run, inner));
            && (r.ok <==> && !w.stored.paused && Honourable(p, w.stored.now, Of(w.stored.nonces, p.from))
                          && RunnerAccepts(w.(payer := Some(signer)), p, run))
            && (!r.ok ==> r.world == w)
            && (r.ok ==> && w.stored.commits < r.world.stored.commits
                         && r.world.stored.commits[|r.world.stored.commits| - 1] == Commit(p, |w.stored.commits|))
            && forall a :: Of(r.world.stored.nonces, a) - Of(w.stored.nonces, a) ==
                           Count(r.world.stored.commits, a) - Count(w.stored.commits, a)
  {
    var r := Execute(w, Signed(signer, p, run, inner));
    CallKeeps(base, w, Signed(signer, p, run, inner));
    hide Dispatch, ExecuteAll, Wealth, Count, Stamped;
    var sponsored := w.(payer := Some(signer));
    if !w.stored.paused && Valid(w.stored, p) {
      DispatchKeeps(base, sponsored, p, run, inner);
      DispatchOutcome(sponsored, p, run, inner);
    }
  }

  /* ---- which permits a call can dispatch ---- */

  /** A permit, every permit of an account for one nonce, or every permit of an account. */
  datatype Target = Exactly(permit: Permit) | Slot(from: Account, nonce: nat) | By(from: Account)

  predicate Hits(t: Target, p: Permit) {
    match t
    case Exactly(q) => p == q
    case Slot(from, nonce) => p.from == from && p.nonce == nonce
    case By(from) => p.from == from
  }

  /** Somewhere in the call a permit of the target is dispatched, or tried. */
  predicate Mentions(c: Call, t: Target) {
    match c
    case Signed(_, p, _, inner) => Hits(t, p) || AnyMentions(inner, t)
    case Precompiled(p, _, _, inner) => Hits(t, p) || AnyMentions(inner, t)
    case EvmCall(_, _, inner) => AnyMentions(inner, t)
    case FeePayerScope(_, scoped) => Mentions(scoped, t)
    case _ => false
  }

  predicate AnyMentions(cs: Calls, t: Target) {
    cs.Next? && (Mentions(cs.first, t) || AnyMentions(cs.rest, t))
  }

  /** No commit from position `from` on is of the target. */
  ghost predicate NoneFrom(cs: seq<Commit>, from: nat, t: Target) {
    forall i :: from <= i < |cs| ==> !Hits(t, cs[i].permit)
  }

  lemma UnmentionedRun(w: World, from: Account, run: EvmRun, inner: Calls, t: Target, start: nat)
    requires !AnyMentions(inner, t) && NoneFrom(w.stored.commits, start, t) && RunEvm(w, from, run, inner).Some?
    ensures NoneFrom(RunEvm(w, from, run, inner).value.stored.commits, start, t)
    decreases inner, 1
  {
    hide Execute, ExecuteAll;
    UnmentionedCalls(w.(stored := Take(w.stored, Payer(w, from), run.fee)), inner, t, start);
  }

  lemma UnmentionedDispatch(w: World, p: Permit, run: EvmRun, inner: Calls, t: Target, start: nat)
    requires !Hits(t, p) && !AnyMentions(inner, t) && NoneFrom(w.stored.commits, start, t)
    ensures NoneFrom(Dispatch(w, p, run, inner).world.stored.commits, start, t)
    decreases inner, 2
  {
    hide RunEvm;
    if RunEvm(w, p.from, run, inner).Some? {
      UnmentionedRun(w, p.from, run, inner, t, start);
    }
  }

  lemma {:induction false} UnmentionedCall(w: World, c: Call, t: Target, start: nat)
    requires !Mentions(c, t) && NoneFrom(w.stored.commits, start, t)
    ensures NoneFrom(Execute(w, c).world.stored.commits, start, t)
    decreases c
  {
    hide Dispatch, RunEvm, ExecuteAll;
    match c
    case EvmCall(source, run, inner) =>
      if RunEvm(w, source, run, inner).Some? {
        UnmentionedRun(w, source, run, inner, t, start);
      }
    case Signed(signer, p, run, inner) => UnmentionedDispatch(w.(payer := Some(signer)), p, run, inner, t, start);
    case Precompiled(p, _, _, inner) =>
      UnmentionedCalls(w.(stored := Consume(w.stored, p, |w.stored.commits|)), inner, t, start);
    case FeePayerScope(signer, scoped) => UnmentionedCall(w.(payer := Some(signer)), scoped, t, start);
    case _ =>
  }

  lemma {:induction false} UnmentionedCalls(w: World, cs: Calls, t: Target, start: nat)
    requires !AnyMentions(cs, t) && NoneFrom(w.stored.commits, start, t)
    ensures NoneFrom(ExecuteAll(w, cs).stored.commits, start, t)
    decreases cs, 0
  {
    hide Execute, NoneFrom;
    if cs.Next? {
      UnmentionedCall(w, cs.first, t, start);
      UnmentionedCalls(Execute(w, cs.first).world, cs.rest, t, start);
    }
  }

  lemma {:induction false} NoneAdded(short: seq<Commit>, long: seq<Commit>, a: Account)
    requires short <= long && NoneFrom(long, |short|, By(a))
    ensures Count(long, a) == Count(short, a)
    decreases |long|
  {
    if |short| < |long| {
      NoneAdded(short, long[..|long| - 1], a);
    } else {
      assert short == long;
    }
  }

  lemma LastCommitCounts(base: map<Account, nat>, w: World, p: Permit, run: EvmRun, inner: Calls)
    requires Good(base, w.stored) && p.nonce == Of(w.stored.nonces, p.from) && RunnerAccepts(w, p, run)
    requires !AnyMentions(inner, By(p.from))
    ensures var cs := Dispatch(w, p, run, inner).world.stored.commits;
            Count(cs, p.from) == Count(w.stored.commits, p.from) + 1
  {
    DispatchOutcome(w, p, run, inner);
    hide RunEvm, Good, Wealth, RunnerAccepts;
    RunEvmKeeps(base, w, p.from, run, inner);
    UnmentionedRun(w, p.from, run, inner, By(p.from), |w.stored.commits|);
    var mid := RunEvm(w, p.from, run, inner).value.stored.commits;
    NoneAdded(w.stored.commits, mid, p.from);
    var cs := Dispatch(w, p, run, inner).world.stored.commits;
    assert cs[..|cs| - 1] == mid;
  }

  /**
   * Success and inner revert alike: a dispatch inside whose run no permit of its signer is
   * dispatched advances the signer's nonce by exactly one, and every other nonce by the commits
   * of its account.
   */
  lemma NonceAdvancesByOne(base: map<Account, nat>, w: World, p: Permit, run: EvmRun, inner: Calls)
    requires Good(base, w.stored) && Valid(w.stored, p) && RunnerAccepts(w, p, run)
    requires !AnyMentions(inner, By(p.from))
    ensures var s' := Dispatch(w, p, run, inner).world.stored;
            && Of(s'.nonces, p.from) == Of(w.stored.nonces, p.from) + 1
            && forall a :: Of(s'.nonces, a) - Of(w.stored.nonces, a) == Count(s'.commits, a) - Count(w.stored.commits, a)
  {
    LastCommitCounts(base, w, p, run, inner);
    DispatchKeeps(base, w, p, run, inner);
    hide Dispatch, Count, Stamped, Wealth;
  }

  /* ---- runs ---- */

  lemma UnsignedKeeps(base: map<Account, nat>, w: World, p: Permit, run: EvmRun, inner: Calls)
    ensures var w' := Unsigned(w, p, run, inner).world;
            Keeps(base, w, w'.(stored := w'.stored.(paused := w.stored.paused)))
  {
    if !w.stored.paused && Valid(w.stored, p) {
      DispatchKeeps(base, w, p, run, inner);
    }
    hide Dispatch, Wealth, Count, Stamped;
  }

  lemma SubmitKeeps(base: map<Account, nat>, w: World, x: Submission)
    ensures var w' := Submit(w, x);
            && w'.payer == w.payer
            && w.stored.commits <= w'.stored.commits
            && Wealth(w'.stored) == Wealth(w.stored)
            && (Good(base, w.stored) ==> Good(base, w'.stored))
  {
    hide Execute, Unsigned, SumMap, Count, Stamped;
    match x
    case Extrinsic(call) => CallKeeps(base, w, call);
    case UnsignedPermit(p, run, inner) => UnsignedKeeps(base, w, p, run, inner);
    case _ =>
  }

  /**
   * On every run of submissions: the override is as before, money is only moved to the fee
   * collector, commits are never undone, and nonces count them.
   */
  lemma {:induction false} RunKeeps(base: map<Account, nat>, w: World, xs: seq<Submission>)
    requires Good(base, w.stored)
    ensures var w' := SubmitAll(w, xs);
            && w'.payer == w.payer
            && w.stored.commits <= w'.stored.commits
            && Wealth(w'.stored) == Wealth(w.stored)
            && Good(base, w'.stored)
    decreases |xs|
  {
    hide Submit, Good, Wealth;
    if xs != [] {
      SubmitKeeps(base, w, xs[0]);
      RunKeeps(base, Submit(w, xs[0]), xs[1..]);
    }
  }

  /** The commit at `i` was made inside the dispatch committed at `j`. */
  predicate Encloses(cs: seq<Commit>, j: nat, i: nat)
    requires i < j < |cs|
  {
    cs[j].start <= i
  }

  lemma CountStep(cs: seq<Commit>, i: nat)
    requires i < |cs|
    ensures Count(cs[..i + 1], cs[i].permit.from) == Count(cs[..i], cs[i].permit.from) + 1
  {
    assert cs[..i + 1][..i] == cs[..i];
  }

  /** Two commits signed by one account for one nonce: the later dispatch enclosed the earlier. */
  lemma SameNonceIsEnclosed(base: map<Account, nat>, cs: seq<Commit>, i: nat, j: nat)
    requires Stamped(base, cs) && i < j < |cs|
    requires cs[i].permit.from == cs[j].permit.from && cs[i].permit.nonce == cs[j].permit.nonce
    ensures Encloses(cs, j, i)
  {
    hide Count;
    var from, si, sj := cs[i].permit.from, cs[i].start, cs[j].start;
    assert StampedAt(base, cs, i) && StampedAt(base, cs, j);
    if i < sj {
      CountGrows(cs[..si], cs[..i], from);
      CountStep(cs, i);
      CountGrows(cs[..i + 1], cs[..sj], from);
    }
  }

  /**
   * On every run, of two commits signed by one account for one nonce the later dispatch ran
   * around the earlier: nonces are never used twice in sequence, whoever submits what.
   */
  lemma SameNonceIsNested(w: World, xs: seq<Submission>, i: nat, j: nat)
    requires w.stored.commits == []
    requires var cs := SubmitAll(w, xs).stored.commits;
             i < j < |cs| && cs[i].permit.from == cs[j].permit.from && cs[i].permit.nonce == cs[j].permit.nonce
    ensures Encloses(SubmitAll(w, xs).stored.commits, j, i)
  {
    hide SubmitAll, Wealth;
    assert Good(w.stored.nonces, w.stored);
    RunKeeps(w.stored.nonces, w, xs);
    SameNonceIsEnclosed(w.stored.nonces, SubmitAll(w, xs).stored.commits, i, j);
  }

  /* ---- permits that do not dispatch themselves ---- */

  /**
   * No signed dispatch of the target has the target inside its own run. Any other nesting is
   * allowed, and so is everything under the precompile, which takes its nonce first.
   */
  predicate Apart(c: Call, t: Target) {
    match c
    case Signed(_, p, _, inner) => AllApart(inner, t) && (Hits(t, p) ==> !AnyMentions(inner, t))
    case Precompiled(_, _, _, inner) => AllApart(inner, t)
    case EvmCall(_, _, inner) => AllApart(inner, t)
    case FeePayerScope(_, scoped) => Apart(scoped, t)
    case _ => true
  }

  predicate AllApart(cs: Calls, t: Target) {
    cs.Next? ==> Apart(cs.first, t) && AllApart(cs.rest, t)
  }

  predicate SubmittedApart(x: Submission, t: Target) {
    match x
    case Extrinsic(call) => Apart(call, t)
    case UnsignedPermit(p, _, inner) => AllApart(inner, t) && (Hits(t, p) ==> !AnyMentions(inner, t))
    case _ => true
  }

  /** No commit of the target ran around an earlier one of it. */
  ghost predicate NotAround(cs: seq<Commit>, t: Target) {
    forall i, j :: 0 <= i < j < |cs| && Hits(t, cs[i].permit) && Hits(t, cs[j].permit) ==> cs[j].start > i
  }

  lemma ApartEvm(w: World, from: Account, run: EvmRun, inner: Calls, t: Target)
    requires AllApart(inner, t) && NotAround(w.stored.commits, t) && RunEvm(w, from, run, inner).Some?
    ensures NotAround(RunEvm(w, from, run, inner).value.stored.commits, t)
    decreases inner, 1
  {
    hide Execute, ExecuteAll;
    ApartCalls(w.(stored := Take(w.stored, Payer(w, from), run.fee)), inner, t);
  }

  lemma ApartDispatch(w: World, p: Permit, run: EvmRun, inner: Calls, t: Target)
    requires AllApart(inner, t) && (Hits(t, p) ==> !AnyMentions(inner, t)) && NotAround(w.stored.commits, t)
    ensures NotAround(Dispatch(w, p, run, inner).world.stored.commits, t)
    decreases inner, 2
  {
    hide RunEvm, NotAround;
    if RunEvm(w, p.from, run, inner).Some? {
      ApartEvm(w, p.from, run, inner, t);
      var n := |w.stored.commits|;
      if Hits(t, p) {
        UnmentionedRun(w, p.from, run, inner, t, n);
      }
      OneMoreApart(RunEvm(w, p.from, run, inner).value.stored.commits, p, n, t);
    }
  }

  lemma OneMoreApart(cs: seq<Commit>, p: Permit, start: nat, t: Target)
    requires NotAround(cs, t) && (Hits(t, p) ==> NoneFrom(cs, start, t))
    ensures NotAround(cs + [Commit(p, start)], t)
  {}

  lemma {:induction false} ApartCall(w: World, c: Call, t: Target)
    requires Apart(c, t) && NotAround(w.stored.commits, t)
    ensures NotAround(Execute(w, c).world.stored.commits, t)
    decreases c
  {
    hide Dispatch, RunEvm, ExecuteAll, NotAround;
    match c
    case EvmCall(source, run, inner) =>
      if RunEvm(w, source, run, inner).Some? {
        ApartEvm(w, source, run, inner, t);
      }
    case Signed(signer, p, run, inner) => ApartDispatch(w.(payer := Some(signer)), p, run, inner, t);
    case Precompiled(p, _, _, inner) =>
      OneMoreApart(w.stored.commits, p, |w.stored.commits|, t);
      ApartCalls(w.(stored := Consume(w.stored, p, |w.stored.commits|)), inner, t);
    case FeePayerScope(signer, scoped) => ApartCall(w.(payer := Some(signer)), scoped, t);
    case _ =>
  }

  lemma {:induction false} ApartCalls(w: World, cs: Calls, t: Target)
    requires AllApart(cs, t) && NotAround(w.stored.commits, t)
    ensures NotAround(ExecuteAll(w, cs).stored.commits, t)
    decreases cs, 0
  {
    hide Execute, NotAround;
    if cs.Next? {
      ApartCall(w, cs.first, t);
      ApartCalls(Execute(w, cs.first).world, cs.rest, t);
    }
  }

  lemma {:induction false} ApartRun(w: World, xs: seq<Submission>, t: Target)
    requires NotAround(w.stored.commits, t)
    requires forall k :: 0 <= k < |xs| ==> SubmittedApart(xs[k], t)
    ensures NotAround(SubmitAll(w, xs).stored.commits, t)
    decreases |xs|
  {
    hide Execute, Dispatch, NotAround;
    if xs != [] {
      assert SubmittedApart(xs[0], t);
      match xs[0] {
        case Extrinsic(call) => ApartCall(w, call, t);
        case UnsignedPermit(p, run, inner) => ApartDispatch(w, p, run, inner, t);
        case _ =>
      }
      ApartRun(Submit(w, xs[0]), xs[1..], t);
    }
  }

  predicate CommitsTwice(cs: seq<Commit>, t: Target) {
    exists i, j :: 0 <= i < j < |cs| && Hits(t, cs[i].permit) && Hits(t, cs[j].permit)
  }

  /**
   * On every interleaving of submissions by anyone, a permit commits at most once, and so does
   * any permit of one account for one nonce, provided no signed or unsigned dispatch of it has
   * it again among the calls inside its own run.
   */
  lemma CommitsOnce(w: World, xs: seq<Submission>, t: Target)
    requires w.stored.commits == [] && !t.By?
    requires forall k :: 0 <= k < |xs| ==> SubmittedApart(xs[k], t)
    ensures !CommitsTwice(SubmitAll(w, xs).stored.commits, t)
  {
    hide SubmitAll, SubmittedApart;
    ApartRun(w, xs, t);
    var cs := SubmitAll(w, xs).stored.commits;
    if i, j :| 0 <= i < j < |cs| && Hits(t, cs[i].permit) && Hits(t, cs[j].permit) {
      SameNonceIsNested(w, xs, i, j);
    }
  }

  /**
   * The proviso is needed: in any unpaused state with a valid permit, a dispatch the runner takes
   * whose run dispatches the permit again commits it twice.
   */
  lemma NestedDispatchCommitsToo(w: World, p: Permit, run: EvmRun, signer: Account, again: EvmRun)
    requires !w.stored.paused && Valid(w.stored, p) && RunnerAccepts(w, p, run) && !run.reverts
    requires RunnerAccepts(World(Take(w.stored, Payer(w, p.from), run.fee), Some(signer)), p, again)
    ensures var n := |w.stored.commits|;
            Dispatch(w, p, run, Next(Signed(signer, p, again, Done), Done)).world.stored.commits ==
            w.stored.commits + [Commit(p, n), Commit(p, n)]
  {
    hide Execute, ExecuteAll;
    var charged := w.(stored := Take(w.stored, Payer(w, p.from), run.fee));
    SingleCall(charged, Signed(signer, p, again, Done));
    InnerCommit(charged, p, again, signer);
  }

  lemma SingleCall(w: World, c: Call)
    ensures ExecuteAll(w, Next(c, Done)) == Execute(w, c).world
  {
    hide Execute;
  }

  lemma InnerCommit(w: World, p: Permit, run: EvmRun, signer: Account)
    requires !w.stored.paused && Valid(w.stored, p) && RunnerAccepts(w.(payer := Some(signer)), p, run)
    ensures Execute(w, Signed(signer, p, run, Done)).world.stored.commits == w.stored.commits + [Commit(p, |w.stored.commits|)]
  {
    var s := w.(payer := Some(signer));
    var charged := s.(stored := Take(s.stored, Payer(s, p.from), run.fee));
    assert ExecuteAll(charged, Done) == charged;
  }

  /** So the unconditional claim is false of some run. */
  lemma EnclosedDispatchCommitsToo()
    ensures exists w: World, xs: seq<Submission>, p: Permit ::
              w.stored.commits == [] && CommitsTwice(SubmitAll(w, xs).stored.commits, Exactly(p))
  {
    var p := Permit(1, 0, 10, true, 7);
    var run := EvmRun(false, 0, 0, true, false, false);
    var w := World(Stored(0, map[], false, map[], 0, []), None);
    var inner := Next(Signed(1, p, run, Done), Done);
    NestedDispatchCommitsToo(w, p, run, 1, run);
    hide Dispatch;
    var xs := [UnsignedPermit(p, run, inner)];
    DispatchOutcome(w, p, run, inner);
    assert xs[1..] == [];
    assert SubmitAll(w, xs) == Submit(w, xs[0]);
    var cs := SubmitAll(w, xs).stored.commits;
    assert |cs| == 2 && cs[0].permit == p && cs[1].permit == p;
    assert CommitsTwice(cs, Exactly(p));
  }

  /* ---- pausing and pre-validation ---- */

  /** Only an unsigned submission with an invalid permit or a runner error pauses the call. */
  lemma PausesIff(w: World, x: Submission)
    requires !w.stored.paused
    ensures Submit(w, x).stored.paused <==>
              match x
              case UnsignedPermit(p, run, _) =>
                !Honourable(p, w.stored.now, Of(w.stored.nonces, p.from)) || !RunnerAccepts(w, p, run)
              case SetPaused(b) => b
              case _ => false
  {
    hide Execute, Dispatch, Good, Wealth;
    match x
    case Extrinsic(call) => CallKeeps(map[], w, call);
    case UnsignedPermit(p, run, inner) =>
      if Valid(w.stored, p) {
        DispatchKeeps(map[], w, p, run, inner);
        DispatchOutcome(w, p, run, inner);
      }
    case _ =>
  }

  /** Pre-validation leaves no trace, in storage or in the override. */
  lemma ValidationLeavesNoTrace(w: World, p: Permit, run: EvmRun, inner: Calls)
    ensures ValidateUnsigned(w, p, run, inner).world == w
  {
    hide Dispatch, Good, Wealth;
    if Valid(w.stored, p) {
      DispatchKeeps(map[], w, p, run, inner);
    }
  }

  /**
   * What pre-validation accepts, submitted to the same state, commits the permit and leaves the
   * call unpaused, exactly when the call was not paused to begin with.
   */
  lemma AcceptedCommits(w: World, p: Permit, run: EvmRun, inner: Calls)
    requires ValidateUnsigned(w, p, run, inner).ok
    ensures var r := Unsigned(w, p, run, inner);
            var cs := r.world.stored.commits;
            && (!w.stored.paused <==> |cs| > |w.stored.commits| && cs[|cs| - 1] == Commit(p, |w.stored.commits|))
            && (!w.stored.paused <==> !r.world.stored.paused)
            && (w.stored.paused ==> r.world == w)
  {
    hide Dispatch, Good, Wealth;
    DispatchKeeps(map[], w, p, run, inner);
  }

  /**
   * And nothing else does: from an unpaused state, what commits and neither reverts nor moves
   * the account nonce is exactly what pre-validation accepts.
   */
  lemma AcceptedIffCommitsWell(w: World, p: Permit, run: EvmRun, inner: Calls)
    requires !w.stored.paused
    ensures ValidateUnsigned(w, p, run, inner).ok <==>
              && |Unsigned(w, p, run, inner).world.stored.commits| > |w.stored.commits|
              && !run.reverts && !run.nonceMoved
  {
    hide Dispatch, Good, Wealth;
    if Valid(w.stored, p) {
      DispatchKeeps(map[], w, p, run, inner);
      DispatchEnds(w, p, run, inner);
      DispatchOutcome(w, p, run, inner);
    }
  }

  lemma DispatchEnds(w: World, p: Permit, run: EvmRun, inner: Calls)
    ensures Dispatch(w, p, run, inner).outcome.Succeeded? <==> RunnerAccepts(w, p, run) && !run.reverts && !run.nonceMoved
  {
    hide Execute, ExecuteAll;
  }
}
