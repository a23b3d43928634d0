/** The worker pool: a semaphore channel, a wait group and an in-progress counter, for any number of goroutines in
    any interleaving. */
module Pool {
  /** Where a goroutine of Execute is: before the channel send, between send and increment, running its function,
      past it, between decrement and receive, past the receive, done with the wait group. */
  datatype Stage = Queued | Admitted | Running | Ran | Leaving | Released | Finished

  /** runs[i] counts the calls of function i. */
  datatype State = State(limit: nat, tokens: nat, wg: nat, inProgress: int, stages: seq<Stage>, runs: seq<nat>)

  datatype Step = Execute | Advance(i: nat)

  function Initial(limit: nat): State {
    State(limit, 0, 0, 0, [], [])
  }

  function Next(g: Stage): Stage {
    match g
    case Queued => Admitted
    case Admitted => Running
    case Running => Ran
    case Ran => Leaving
    case Leaving => Released
    case Released => Finished
    case Finished => Finished
  }

  /** The send blocks while the channel is full; the receive and the wait group's Done need something to take. */
  predicate Enabled(s: State, st: Step) {
    match st
    case Execute => true
    case Advance(i) =>
      && i < |s.stages| && i < |s.runs|
      && s.stages[i] != Finished
      && (s.stages[i].Queued? ==> s.tokens < s.limit)
      && (s.stages[i].Leaving? ==> s.tokens > 0)
      && (s.stages[i].Released? ==> s.wg > 0)
  }

  function Apply(s: State, st: Step): State
    requires Enabled(s, st)
  {
    match st
    case Execute => s.(wg := s.wg + 1, stages := s.stages + [Queued], runs := s.runs + [0])
    case Advance(i) =>
      var s1 := s.(stages := s.stages[i := Next(s.stages[i])]);
      match s.stages[i]
      case Queued => s1.(tokens := s.tokens + 1)
      case Admitted => s1.(inProgress := s.inProgress + 1)
      case Running => s1.(runs := s.runs[i := s.runs[i] + 1])
      case Ran => s1.(inProgress := s.inProgress - 1)
      case Leaving => s1.(tokens := s.tokens - 1)
      case Released => s1.(wg := s.wg - 1)
      case Finished => s1
  }

  /** Wait returns only with the wait group at zero. */
  predicate WaitReturns(s: State) {
    s.wg == 0
  }

  ghost predicate IsRun(limit: nat, ss: seq<State>, steps: seq<Step>) {
    && |ss| == |steps| + 1
    && ss[0] == Initial(limit)
    && forall k {:trigger steps[k]} :: 0 <= k < |steps| ==>
         Enabled(ss[k], steps[k]) && ss[k + 1] == Apply(ss[k], steps[k])
  }

  /** How many goroutines are at one of the given stages. */
  function Count(stages: seq<Stage>, at: set<Stage>): nat {
    if |stages| == 0 then 0
    else Count(stages[..|stages| - 1], at) + (if stages[|stages| - 1] in at then 1 else 0)
  }

  function StepsLeft(g: Stage): nat {
    match g
    case Queued => 6
    case Admitted => 5
    case Running => 4
    case Ran => 3
    case Leaving => 2
    case Released => 1
    case Finished => 0
  }

  /** The steps all goroutines still have to take. */
  function Work(stages: seq<Stage>): nat {
    if |stages| == 0 then 0 else Work(stages[..|stages| - 1]) + StepsLeft(stages[|stages| - 1])
  }

  lemma {:induction false} CountUpdate(stages: seq<Stage>, i: nat, g: Stage, at: set<Stage>)
    requires i < |stages|
    ensures Count(stages[i := g], at) + (if stages[i] in at then 1 else 0) ==
            Count(stages, at) + (if g in at then 1 else 0)
  {
    var n := |stages| - 1;
    if i == n {
      assert stages[i := g][..n] == stages[..n];
    } else {
      CountUpdate(stages[..n], i, g, at);
      assert stages[i := g][..n] == stages[..n][i := g];
    }
  }

  lemma {:induction false} WorkUpdate(stages: seq<Stage>, i: nat, g: Stage)
    requires i < |stages|
    ensures Work(stages[i := g]) + StepsLeft(stages[i]) == Work(stages) + StepsLeft(g)
  {
    var n := |stages| - 1;
    if i == n {
      assert stages[i := g][..n] == stages[..n];
    } else {
      WorkUpdate(stages[..n], i, g);
      assert stages[i := g][..n] == stages[..n][i := g];
    }
  }

  lemma Append(stages: seq<Stage>, g: Stage, at: set<Stage>)
    ensures Count(stages + [g], at) == Count(stages, at) + (if g in at then 1 else 0)
    ensures Work(stages + [g]) == Work(stages) + StepsLeft(g)
  {
    assert (stages + [g])[..|stages|] == stages;
  }

  lemma {:induction false} CountMono(stages: seq<Stage>, a: set<Stage>, b: set<Stage>)
    requires a <= b
    ensures Count(stages, a) <= Count(stages, b)
  {
    if |stages| > 0 {
      CountMono(stages[..|stages| - 1], a, b);
    }
  }

  const COUNTED: set<Stage> := {Running, Ran}
  const HOLDING: set<Stage> := {Admitted, Running, Ran, Leaving}
  const UNFINISHED: set<Stage> := {Queued, Admitted, Running, Ran, Leaving, Released}

  predicate HasRun(g: Stage) {
    g.Ran? || g.Leaving? || g.Released? || g.Finished?
  }

  predicate Consistent(s: State) {
    && |s.runs| == |s.stages|
    && s.inProgress == Count(s.stages, COUNTED)
    && s.tokens == Count(s.stages, HOLDING) <= s.limit
    && s.wg == Count(s.stages, UNFINISHED)
    && forall i :: 0 <= i < |s.stages| ==> s.runs[i] == if HasRun(s.stages[i]) then 1 else 0
  }

  lemma ExecuteKeepsConsistent(s: State)
    requires Consistent(s)
    ensures Consistent(Apply(s, Execute))
  {
    Append(s.stages, Queued, COUNTED);
    Append(s.stages, Queued, HOLDING);
    Append(s.stages, Queued, UNFINISHED);
  }

  lemma AdvanceKeepsCounts(s: State, i: nat)
    requires Enabled(s, Advance(i)) && Consistent(s)
    ensures var s' := Apply(s, Advance(i));
            && s'.inProgress == Count(s'.stages, COUNTED)
            && s'.tokens == Count(s'.stages, HOLDING) <= s'.limit
            && s'.wg == Count(s'.stages, UNFINISHED)
  {
    var g := Next(s.stages[i]);
    CountUpdate(s.stages, i, g, COUNTED);
    CountUpdate(s.stages, i, g, HOLDING);
    CountUpdate(s.stages, i, g, UNFINISHED);
  }

  lemma AdvanceKeepsRuns(s: State, i: nat)
    requires Enabled(s, Advance(i)) && Consistent(s)
    ensures var s' := Apply(s, Advance(i));
            && |s'.runs| == |s'.stages|
            && forall j :: 0 <= j < |s'.stages| ==> s'.runs[j] == if HasRun(s'.stages[j]) then 1 else 0
  {
  }

  lemma StepKeepsConsistent(s: State, st: Step)
    requires Enabled(s, st) && Consistent(s)
    ensures Consistent(Apply(s, st))
  {
    match st
    case Execute => ExecuteKeepsConsistent(s);
    case Advance(i) =>
      AdvanceKeepsCounts(s, i);
      AdvanceKeepsRuns(s, i);
  }

  lemma {:induction false} RunIsConsistent(limit: nat, ss: seq<State>, steps: seq<Step>, k: nat)
    requires IsRun(limit, ss, steps) && k <= |steps|
    ensures Consistent(ss[k]) && ss[k].limit == limit
  {
    if k > 0 {
      RunIsConsistent(limit, ss, steps, k - 1);
      StepKeepsConsistent(ss[k - 1], steps[k - 1]);
    }
  }

  /** Pool bound: in every reachable state the counter equals the goroutines between increment and decrement, these are
      at most the tokens in the channel, and these at most the limit; so at most limit functions run at once. */
  lemma PoolBound(limit: nat, ss: seq<State>, steps: seq<Step>, k: nat)
    requires IsRun(limit, ss, steps) && k <= |steps|
    ensures Count(ss[k].stages, {Running}) <= ss[k].inProgress == Count(ss[k].stages, COUNTED) <= ss[k].tokens <= limit
  {
    RunIsConsistent(limit, ss, steps, k);
    CountMono(ss[k].stages, {Running}, COUNTED);
    CountMono(ss[k].stages, COUNTED, HOLDING);
  }

  lemma {:induction false} CountPositive(stages: seq<Stage>, at: set<Stage>)
    ensures Count(stages, at) > 0 <==> exists i :: 0 <= i < |stages| && stages[i] in at
  {
    if |stages| > 0 {
      var n := |stages| - 1;
      CountPositive(stages[..n], at);
      if i :| 0 <= i < |stages| && stages[i] in at {
        if i < n { assert stages[..n][i] in at; }
      }
      if Count(stages[..n], at) > 0 {
        var i :| 0 <= i < n && stages[..n][i] in at;
        assert stages[i] in at;
      }
    }
  }

  /** With a limit of at least one, some goroutine can always move until all are finished. */
  lemma SomeoneCanMove(s: State)
    requires Consistent(s) && s.limit >= 1
    requires exists i :: 0 <= i < |s.stages| && s.stages[i] != Finished
    ensures exists i: nat :: i < |s.stages| && Enabled(s, Advance(i))
  {
    var j :| 0 <= j < |s.stages| && s.stages[j] != Finished;
    CountPositive(s.stages, HOLDING);
    CountPositive(s.stages, UNFINISHED);
    assert s.stages[j] in UNFINISHED;
    if s.tokens == 0 {
      assert Enabled(s, Advance(j));
    } else {
      var h :| 0 <= h < |s.stages| && s.stages[h] in HOLDING;
      assert Enabled(s, Advance(h));
    }
  }

  function Executes(steps: seq<Step>, k: nat): nat
    requires k <= |steps|
  {
    if k == 0 then 0 else Executes(steps, k - 1) + (if steps[k - 1].Execute? then 1 else 0)
  }

  /** The steps goroutines have taken and those they have left always add up to six for each Execute. */
  lemma {:induction false} WorkIsSpent(limit: nat, ss: seq<State>, steps: seq<Step>, k: nat)
    requires IsRun(limit, ss, steps) && k <= |steps|
    ensures |ss[k].stages| == Executes(steps, k)
    ensures (k - Executes(steps, k)) + Work(ss[k].stages) == 6 * Executes(steps, k)
  {
    if k > 0 {
      WorkIsSpent(limit, ss, steps, k - 1);
      var s := ss[k - 1];
      match steps[k - 1]
      case Execute => Append(s.stages, Queued, {});
      case Advance(i) => WorkUpdate(s.stages, i, Next(s.stages[i]));
    }
  }

  /** Pool completion: with a limit of at least one, in any interleaving of any finite number of Execute calls, either
      every goroutine is finished or one can step; each goroutine step leaves exactly one step less to take. */
  lemma PoolCompletes(limit: nat, ss: seq<State>, steps: seq<Step>, k: nat)
    requires limit >= 1 && IsRun(limit, ss, steps) && k <= |steps|
    ensures (forall i :: 0 <= i < |ss[k].stages| ==> ss[k].stages[i] == Finished)
            || exists i: nat :: i < |ss[k].stages| && Enabled(ss[k], Advance(i))
    ensures k - Executes(steps, k) <= 6 * Executes(steps, k)
    ensures k < |steps| && steps[k].Advance? ==> Work(ss[k + 1].stages) == Work(ss[k].stages) - 1
  {
    RunIsConsistent(limit, ss, steps, k);
    WorkIsSpent(limit, ss, steps, k);
    if k < |steps| {
      WorkIsSpent(limit, ss, steps, k + 1);
    }
    if exists i :: 0 <= i < |ss[k].stages| && ss[k].stages[i] != Finished {
      SomeoneCanMove(ss[k]);
    }
  }

  /** Wait returns exactly when every submitted function has been run exactly once and its goroutine is through; the
      channel is empty then and the counter zero. */
  lemma WaitMeansAllRan(limit: nat, ss: seq<State>, steps: seq<Step>, k: nat)
    requires IsRun(limit, ss, steps) && k <= |steps|
    ensures WaitReturns(ss[k]) <==> forall i :: 0 <= i < |ss[k].stages| ==> ss[k].stages[i] == Finished
    ensures WaitReturns(ss[k]) ==>
              && ss[k].tokens == 0 && ss[k].inProgress == 0
              && |ss[k].runs| == Executes(steps, k)
              && forall i :: 0 <= i < |ss[k].runs| ==> ss[k].runs[i] == 1
  {
    var s := ss[k];
    RunIsConsistent(limit, ss, steps, k);
    WorkIsSpent(limit, ss, steps, k);
    CountPositive(s.stages, UNFINISHED);
    CountMono(s.stages, HOLDING, UNFINISHED);
    CountMono(s.stages, COUNTED, UNFINISHED);
    if WaitReturns(s) {
      forall i | 0 <= i < |s.stages|
        ensures s.stages[i] == Finished
      {
        assert s.stages[i] !in UNFINISHED;
      }
    }
  }

  /** The pool itself; the methods are the atomic steps of Execute, enter and exit as goroutine i takes them. */
  class WorkerPool {
    const limit: nat
    var activeWorkers: nat
    var wg: nat
    var inProgress: int
    var stages: seq<Stage>
    var runs: seq<nat>

    ghost function View(): State
      reads this
    {
      State(limit, activeWorkers, wg, inProgress, stages, runs)
    }

    constructor (limit: nat)
      ensures View() == Initial(limit)
    {
      this.limit := limit;
      activeWorkers, wg, inProgress, stages, runs := 0, 0, 0, [], [];
    }

    method Execute() returns (i: nat)
      modifies this
      ensures View() == Apply(old(View()), Step.Execute) && i == |old(stages)|
    {
      i := |stages|;
      wg := wg + 1;
      stages := stages + [Queued];
      runs := runs + [0];
    }

    /** enter: the send on activeWorkers. */
    method Enter(i: nat)
      requires Enabled(View(), Advance(i)) && stages[i].Queued?
      modifies this
      ensures View() == Apply(old(View()), Advance(i))
    {
      activeWorkers := activeWorkers + 1;
      stages := stages[i := Admitted];
    }

    /** enter: the atomic increment. */
    method CountIn(i: nat)
      requires Enabled(View(), Advance(i)) && stages[i].Admitted?
      modifies this
      ensures View() == Apply(old(View()), Advance(i))
    {
      inProgress := inProgress + 1;
      stages := stages[i := Running];
    }

    method RunFunction(i: nat)
      requires Enabled(View(), Advance(i)) && stages[i].Running?
      modifies this
      ensures View() == Apply(old(View()), Advance(i))
    {
      runs := runs[i := runs[i] + 1];
      stages := stages[i := Ran];
    }

    /** exit: the atomic decrement. */
    method CountOut(i: nat)
      requires Enabled(View(), Advance(i)) && stages[i].Ran?
      modifies this
      ensures View() == Apply(old(View()), Advance(i))
    {
      inProgress := inProgress - 1;
      stages := stages[i := Leaving];
    }

    /** exit: the receive from activeWorkers. */
    method Exit(i: nat)
      requires Enabled(View(), Advance(i)) && stages[i].Leaving?
      modifies this
      ensures View() == Apply(old(View()), Advance(i))
    {
      activeWorkers := activeWorkers - 1;
      stages := stages[i := Released];
    }

    /** The deferred wg.Done. */
    method WgDone(i: nat)
      requires Enabled(View(), Advance(i)) && stages[i].Released?
      modifies this
      ensures View() == Apply(old(View()), Advance(i))
    {
      wg := wg - 1;
      stages := stages[i := Finished];
    }

    /** Whoever's turn it is. */
    method Take(st: Step)
      requires Enabled(View(), st)
      modifies this
      ensures View() == Apply(old(View()), st)
    {
      match st {
        case Execute => var _ := Execute();
        case Advance(i) =>
          match stages[i] {
            case Queued => Enter(i);
            case Admitted => CountIn(i);
            case Running => RunFunction(i);
            case Ran => CountOut(i);
            case Leaving => Exit(i);
            case Released => WgDone(i);
          }
      }
    }

    /** Any interleaving: the pool goes through the states of the run; the counter never passes the limit, and a wait
        group at zero means every function submitted has been called exactly once. */
    method Run(steps: seq<Step>, ghost ss: seq<State>)
      requires IsRun(limit, ss, steps) && View() == ss[0]
      modifies this
      ensures View() == ss[|steps|]
      ensures inProgress <= activeWorkers <= limit
      ensures wg == 0 ==> |runs| == Executes(steps, |steps|) && forall i :: 0 <= i < |runs| ==> runs[i] == 1
    {
      var k := 0;
      while k < |steps|
        invariant k <= |steps| && View() == ss[k]
      {
        Take(steps[k]);
        k := k + 1;
      }
      PoolBound(limit, ss, steps, k);
      WaitMeansAllRan(limit, ss, steps, k);
    }
  }
}
