/** What every tree of nested dispatches keeps, and what every run of submissions guarantees. */
module PermitLaws {
  import opened Common
  import opened PermitModel

  /** How many of the commits are by `a`. */
  function Count(cs: seq<Commit>, a: Account): nat {
    if cs == [] then 0 else Count(cs[..|cs| - 1], a) + if cs[|cs| - 1].permit.from == a then 1 else 0
  }

  lemma {:induction false} CountGrows(short: seq<Commit>, long: seq<Commit>, a: Account)
    requires short <= long
    ensures Count(short, a) <= Count(long, a)
    decreases |long|
  {
    if |short| < |long| {
      CountGrows(short, long[..|long| - 1], a);
    } else {
      assert short == long;
    }
  }

  /** Every nonce is the initial one plus the commits of its account. */
  ghost predicate NoncesCount(base: map<Account, nat>, s: Stored) {
    forall a :: Of(s.nonces, a) == Of(base, a) + Count(s.commits, a)
  }

  /** Every committed permit was signed for the nonce that stood when its dispatch began. */
  ghost predicate Stamped(base: map<Account, nat>, cs: seq<Commit>) {
    forall j :: 0 <= j < |cs| ==> StampedAt(base, cs, j)
  }

  predicate StampedAt(base: map<Account, nat>, cs: seq<Commit>, j: nat)
    requires j < |cs|
  {
    var e := cs[j];
    e.start <= j && e.permit.nonce == Of(base, e.permit.from) + Count(cs[..e.start], e.permit.from)
  }

  ghost predicate Good(base: map<Account, nat>, s: Stored) {
    NoncesCount(base, s) && Stamped(base, s.commits)
  }

  ghost function Wealth(s: Stored): nat {
    SumMap(s.funds) + s.collected
  }

  /** What a call must keep. */
  ghost predicate Keeps(base: map<Account, nat>, w: World, w': World) {
    && w'.payer == w.payer
    && w'.stored.paused == w.stored.paused
    && w'.stored.now == w.stored.now
    && w.stored.commits <= w'.stored.commits
    && Wealth(w'.stored) == Wealth(w.stored)
    && (Good(base, w.stored) ==> Good(base, w'.stored))
  }

  lemma ConsumeKeepsGood(base: map<Account, nat>, s0: Stored, s: Stored, p: Permit)
    requires Good(base, s0) && Good(base, s) && s0.commits <= s.commits
    requires p.nonce == Of(s0.nonces, p.from)
    ensures Good(base, Consume(s, p, |s0.commits|))
  {
    var s' := Consume(s, p, |s0.commits|);
    assert s'.commits[..|s.commits|] == s.commits;
    forall j | 0 <= j < |s'.commits|
      ensures StampedAt(base, s'.commits, j)
    {
      if j < |s.commits| {
        assert StampedAt(base, s.commits, j);
        assert s'.commits[..s.commits[j].start] == s.commits[..s.commits[j].start];
      } else {
        assert s'.commits[..|s0.commits|] == s0.commits;
      }
    }
  }

  lemma TakeWealth(s: Stored, a: Account, amount: nat)
    requires amount <= Of(s.funds, a)
    ensures Wealth(Take(s, a, amount)) == Wealth(s) - amount
  {
    SumMapUpdate(s.funds, a, Of(s.funds, a) - amount);
  }

  lemma GiveWealth(s: Stored, a: Account, amount: nat)
    ensures Wealth(Give(s, a, amount)) == Wealth(s) + amount
  {
    SumMapUpdate(s.funds, a, Of(s.funds, a) + amount);
  }

  lemma SettleWealth(w: World, from: Account, run: EvmRun)
    ensures Wealth(Settle(w, from, run).stored) == Wealth(w.stored) + run.fee
  {
    GiveWealth(w.stored, Payer(w, from), Refund(run));
  }

  lemma GoodIgnoresFunds(base: map<Account, nat>, s: Stored, s': Stored)
    requires s'.nonces == s.nonces && s'.commits == s.commits
    ensures Good(base, s') == Good(base, s)
  {}

  /** A run of the EVM keeps everything a call must keep. */
  lemma RunEvmKeeps(base: map<Account, nat>, w: World, from: Account, run: EvmRun, inner: Calls)
    requires RunEvm(w, from, run, inner).Some?
    ensures Keeps(base, w, RunEvm(w, from, run, inner).value)
    decreases inner, 1
  {
    hide Good, Wealth, Execute, ExecuteAll;
    var charged := w.(stored := Take(w.stored, Payer(w, from), run.fee));
    TakeWealth(w.stored, Payer(w, from), run.fee);
    GoodIgnoresFunds(base, w.stored, charged.stored);
    AllKeep(base, charged, inner);
    var kept := if run.reverts then World(charged.stored, ExecuteAll(charged, inner).payer) else ExecuteAll(charged, inner);
    assert Keeps(base, charged, kept);
    SettleWealth(kept, from, run);
    GoodIgnoresFunds(base, kept.stored, Settle(kept, from, run).stored);
  }

  /** A dispatch keeps everything a call must keep; only a runner error leaves its nonce alone. */
  lemma DispatchKeeps(base: map<Account, nat>, w: World, p: Permit, run: EvmRun, inner: Calls)
    requires p.nonce == Of(w.stored.nonces, p.from)
    ensures Keeps(base, w, Dispatch(w, p, run, inner).world)
    ensures !Dispatch(w, p, run, inner).outcome.RunnerError? ==>
              var s' := Dispatch(w, p, run, inner).world.stored;
              |s'.commits| > |w.stored.commits| && s'.commits[|s'.commits| - 1] == Commit(p, |w.stored.commits|)
    decreases inner, 2
  {
    hide Good, Wealth, RunEvm;
    if RunEvm(w, p.from, run, inner).Some? {
      var settled := RunEvm(w, p.from, run, inner).value;
      RunEvmKeeps(base, w, p.from, run, inner);
      if Good(base, w.stored) {
        ConsumeKeepsGood(base, w.stored, settled.stored, p);
      }
      ConsumeWealth(settled.stored, p, |w.stored.commits|);
    }
  }

  lemma ConsumeWealth(s: Stored, p: Permit, start: nat)
    ensures Wealth(Consume(s, p, start)) == Wealth(s)
  {}

  lemma {:induction false} CallKeeps(base: map<Account, nat>, w: World, c: Call)
    ensures Keeps(base, w, Execute(w, c).world)
    decreases c
  {
    hide Good, Wealth, Dispatch, RunEvm, ExecuteAll;
    match c
    case Signed(signer, p, run, inner) =>
      if !w.stored.paused && Valid(w.stored, p) {
        DispatchKeeps(base, w.(payer := Some(signer)), p, run, inner);
      }
    case Precompiled(p, affordable, reverts, inner) =>
      if affordable && Valid(w.stored, p) {
        var s1 := Consume(w.stored, p, |w.stored.commits|);
        ConsumeWealth(w.stored, p, |w.stored.commits|);
        if Good(base, w.stored) {
          ConsumeKeepsGood(base, w.stored, w.stored, p);
        }
        AllKeep(base, w.(stored := s1), inner);
      }
    case EvmCall(source, run, inner) =>
      if RunEvm(w, source, run, inner).Some? {
        RunEvmKeeps(base, w, source, run, inner);
      }
    case FeePayerScope(signer, scoped) =>
      CallKeeps(base, w.(payer := Some(signer)), scoped);
    case Transfer(from, to, amount) =>
      if amount <= Of(w.stored.funds, from) {
        TakeWealth(w.stored, from, amount);
        GiveWealth(Take(w.stored, from, amount), to, amount);
        GoodIgnoresFunds(base, w.stored, Give(Take(w.stored, from, amount), to, amount));
      }
    case Unrelated(ok) =>
  }

  lemma {:induction false} AllKeep(base: map<Account, nat>, w: World, cs: Calls)
    ensures Keeps(base, w, ExecuteAll(w, cs))
    decreases cs, 0
  {
    hide Good, Wealth, Dispatch, Execute;
    match cs
    case Done =>
    case Next(first, rest) =>
      CallKeeps(base, w, first);
      AllKeep(base, Execute(w, first).world, rest);
  }
}
