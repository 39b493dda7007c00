/** A short run near the end of the u32 block numbers, where a schedule ends on its first failure. */
module DcaWitness {
  import opened Common
  import opened Ledger
  import opened DcaModel
  import opened DcaInvariant
  import opened DcaAttempt
  import opened DcaRuns
  import opened DcaTheorems

  const START: Block := U32_MAX - 5
  const CFG := Config(1, 3, 1, 1, 0, 9)
  const ORDER := Schedule(1, 10, 100, Some(255), None, Sell(5, 6, 10))
  const PRICES := CallInput(Some(0), Some(0), None, [])
  const FAILING := Inputs(false, FeeInput(Some(1), true, 0, ChargeOutOfGas), false,
                          TradeInput(Quoted(0), None, 0), ReplanInput(None, None), [])

  function Empty(): State {
    State(CFG, START, 0, map[], {}, map[], map[], map[], map[], map[], 0, map[(1, 5) := Balance(1000, 0, 0, 0)], NoEvents)
  }

  function Created(): State {
    CreatedAt(Empty(), ORDER, 100, Balance(900, 100, 0, 0), START + 2, START + 2)
  }

  function Waiting(): State {
    TakeBlock(Created())
  }

  function Due(): State {
    TakeBlock(Waiting())
  }

  lemma CreationSucceeds()
    ensures ScheduleCall(Empty(), 1, ORDER, None, PRICES) == Ok(Created())
  {
    var s := Empty();
    assert ReserveFor(CFG, ORDER, PRICES) == (100, None);
    hide ReserveFor;
    assert Reserve(BalanceAt(s, (1, 5)), 100) == Some(Balance(900, 100, 0, 0));
    hide Reserve;
    var s1 := SetBalance(Insert(s, ORDER, 100), (1, 5), Balance(900, 100, 0, 0));
    FreeBlockIsNear(s1.idsPerBlock, 1, START + 2, []);
    hide FreeBlock;
    assert Plan(s1, 0, First, START + 2, []) == Some(PlacedAt(s1, 0, First, START + 2, START + 2));
  }

  lemma DueState()
    ensures Created().idsPerBlock == Waiting().idsPerBlock == map[START + 2 := [0]]
    ensures Created().now == START && Waiting().now == START + 1
    ensures Waiting().schedules == map[0 := ORDER] && Waiting().retries == map[0 := 0] && Waiting().cfg == CFG
    ensures Due().now == START + 2 && Due().schedules == map[0 := ORDER] && Due().remaining == map[0 := 100]
    ensures Due().retries == map[0 := 0] && Due().cfg == CFG && BalanceAt(Due(), (1, 5)).dca == 100
  {
    var none: seq<Id> := [];
    assert none + [0] == [0];
    assert Created().idsPerBlock == map[START + 2 := [0]];
  }

  lemma FailureEnds()
    ensures 0 !in Attempt(Due(), 0, FAILING).schedules
  {
    DueState();
    hide Due;
    var s := Emit(Due(), ExecutionStarted(0, START + 2));
    assert TakeFee(s, 0, FAILING.fee) == FeeOutOfGas;
    var s1 := IncrementGas(s, 0);
    assert s1.schedules == s.schedules && s1.now == START + 2;
    hide TakeFee, IncrementGas, RetryOrTerminate;
    assert Pow2(0) == 1;
    RetrySurvivesIff(s1, 0, []);
    assert !RetryPossible(s1, 0, []) by {
      OneRetryIsTooLate(s1);
    }
  }

  lemma OneRetryIsTooLate(s: State)
    requires s.now == START + 2 && 0 in s.schedules
    ensures !RetryPossible(s, 0, [])
  {
    assert Pow2(RetriesOf(s, 0)) >= 1;
    hide FreeBlock, Pow2;
  }

  /** `s'` follows from `s` by the action. */
  ghost predicate Follows(s: State, a: Action, s': State) {
    Enabled(s, a) && s' == Step(s, a)
  }

  lemma FirstStep()
    ensures Initial(Empty()) && Follows(Empty(), Create(1, ORDER, None, PRICES), Created())
  {
    hide ScheduleCall, Created;
    CreationSucceeds();
  }

  lemma SecondStep()
    ensures Follows(Created(), NewBlock([], []), Waiting())
  {
    DueState();
    hide Created;
  }

  lemma ThirdStep()
    ensures Follows(Waiting(), NewBlock([0], [FAILING]), Attempt(Due(), 0, FAILING))
  {
    DueState();
    hide Waiting, Attempt;
    assert [0][1..] == [] && [FAILING][1..] == [];
  }

  /** The run as a caller sees it: created with 255 retries allowed, gone after one retriable failure. */
  ghost predicate EndsOnFirstFailure(states: seq<State>, actions: seq<Action>) {
    && IsRun(states, actions) && Initial(states[0]) && |states| == 4
    && actions[2] == NewBlock([0], [FAILING])
    && 0 in states[2].schedules && MaxRetries(states[2].cfg, states[2].schedules[0]) == 255 && RetriesOf(states[2], 0) == 0
    && 0 !in states[3].schedules
  }

  /** A schedule that allows 255 retries can be removed on its first failure. */
  lemma FirstFailureMayEnd()
    ensures exists states: seq<State>, actions: seq<Action> :: EndsOnFirstFailure(states, actions)
  {
    hide Empty, Created, Waiting, Due, Attempt, Initial, Enabled, Step;
    FirstStep();
    SecondStep();
    ThirdStep();
    DueState();
    FailureEnds();
    var states := [Empty(), Created(), Waiting(), Attempt(Due(), 0, FAILING)];
    var actions := [Create(1, ORDER, None, PRICES), NewBlock([], []), NewBlock([0], [FAILING])];
    forall i | 0 <= i < |actions| ensures Enabled(states[i], actions[i]) && states[i + 1] == Step(states[i], actions[i]) {
      assert Follows(states[i], actions[i], states[i + 1]);
    }
    assert EndsOnFirstFailure(states, actions);
  }
}
