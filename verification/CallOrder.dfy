/** The step system's worker makes the calls of the event loop: in every run, whatever is interleaved, the calls made so
    far and those still due are the calls of the loop on the events it has seen. */
module CallOrder {
  import opened PusherState
  import opened Pipeline
  import opened Regime
  import Calls = WorkerCalls

  /** What NextEvent has returned; whether an invocation's context ended it is known when the worker sees it. */
  function EventsSeen(steps: seq<Step>, k: nat): seq<Calls.Next>
    requires k <= |steps|
  {
    if k == 0 then [] else Seen(EventsSeen(steps, k - 1), steps[k - 1])
  }

  function Seen(events: seq<Calls.Next>, st: Step): seq<Calls.Next> {
    match st
    case Working(Invocation(req)) => events + [Calls.AnInvoke(req, false)]
    case Working(SeeDeadline) =>
      if |events| > 0 && events[|events| - 1].AnInvoke?
      then events[..|events| - 1] + [events[|events| - 1].(expires := true)]
      else events
    case Working(NextEventFails) => events + [Calls.Fails]
    case Halting(ShutdownEvent) => events + [Calls.AShutdown]
    case _ => events
  }

  /** The call of the worker's goroutine that a step completes. */
  function Made(s: State, st: Step): seq<Calls.Call>
    requires Enabled(s, st)
  {
    match st
    case Select(Invoke) => [Calls.InvokePusher(s.w.inv)]
    case Working(InvokeProcessor) => [Calls.InvokeProcessor(s.w.req)]
    case Working(SeeDeadline) => [Calls.ForceFlush]
    case Halting(ProducerStopped) => if s.w.InStop? then [Calls.ShutdownProducer] else []
    case Halting(StopProcessor) => if s.w.InStop? then [Calls.StopProcessor] else []
    case Select(StopMessage) => if s.w.InStop? then [Calls.StopPusher] else []
    case _ => []
  }

  ghost function CallsMade(c: Config, ss: seq<State>, steps: seq<Step>, k: nat): seq<Calls.Call>
    requires IsRun(c, ss, steps) && k <= |steps|
  {
    if k == 0 then [] else CallsMade(c, ss, steps, k - 1) + Made(ss[k - 1], steps[k - 1])
  }

  /** The calls the worker is certain to make yet, by where it is. */
  function Due(s: State): seq<Calls.Call> {
    match s.w
    case ToPusher(inv, req) => [Calls.InvokePusher(inv), Calls.InvokeProcessor(req)]
    case ToProcessor(_, req) => [Calls.InvokeProcessor(req)]
    case InStop =>
      (match s.stop.phase
       case ProducerDown => Calls.STOP_CALLS
       case ToProc => [Calls.StopProcessor, Calls.StopPusher]
       case AwaitProc => [Calls.StopPusher]
       case ToPush => [Calls.StopPusher]
       case _ => [])
    case _ => []
  }

  /** Another caller has set the stopping flag. */
  predicate StoppedByOther(s: State) {
    !s.stop.phase.NotStopping? && !s.stop.byShutdown
  }

  predicate AllInvokes(events: seq<Calls.Next>) {
    forall i :: 0 <= i < |events| ==> events[i].AnInvoke?
  }

  lemma {:induction false} LoopAppend(events: seq<Calls.Next>, e: Calls.Next, inv: nat, stopping: bool)
    requires AllInvokes(events)
    ensures Calls.LoopCalls(events + [e], inv, stopping) ==
            Calls.LoopCalls(events, inv, stopping) + Calls.LoopCalls([e], inv + |events|, stopping)
  {
    if |events| == 0 {
      assert events + [e] == [e];
    } else {
      assert (events + [e])[1..] == events[1..] + [e];
      LoopAppend(events[1..], e, inv + 1, stopping);
    }
  }

  lemma {:induction false} InvokesIgnoreStopping(events: seq<Calls.Next>, inv: nat, a: bool, b: bool)
    requires AllInvokes(events)
    ensures Calls.LoopCalls(events, inv, a) == Calls.LoopCalls(events, inv, b)
  {
    if |events| > 0 {
      InvokesIgnoreStopping(events[1..], inv + 1, a, b);
    }
  }

  lemma LoopOne(e: Calls.Next, inv: nat, stopping: bool)
    ensures Calls.LoopCalls([e], inv, stopping) ==
            match e
            case AnInvoke(req, expires) => Calls.InvokeCalls(inv, req, expires)
            case AShutdown => if stopping then [] else Calls.STOP_CALLS
            case _ => []
  {
    assert [e][1..] == [];
  }

  /** Invocations, then at most one last event that ended the loop. */
  predicate Shaped(s: State, events: seq<Calls.Next>) {
    if s.w.InStop? || s.w.Returned? then
      && |events| == s.nextInv + 1
      && AllInvokes(events[..s.nextInv])
      && (events[s.nextInv].Fails? || (events[s.nextInv].AShutdown? && !s.stop.phase.NotStopping?))
      && (s.w.InStop? ==> events[s.nextInv].AShutdown?)
    else
      && |events| == s.nextInv
      && AllInvokes(events)
      && (Regime.Invoked(s.w) || s.w.ToPusher? ==> s.nextInv > 0 && !events[s.nextInv - 1].expires)
      && !(s.stop.byShutdown)
  }

  predicate Tied(s: State, events: seq<Calls.Next>, made: seq<Calls.Call>) {
    Shaped(s, events) && Calls.LoopCalls(events, 0, StoppedByOther(s)) == made + Due(s)
  }

  lemma SelectShapes(c: Config, s: State, b: Branch, events: seq<Calls.Next>)
    requires SelectEnabled(s, b) && Shaped(s, events)
    ensures Shaped(ApplySelect(c, s, b), events)
  {
  }

  lemma WorkShapes(s: State, k: Work, events: seq<Calls.Next>)
    requires WorkEnabled(s, k) && Shaped(s, events)
    ensures Shaped(ApplyWork(s, k), Seen(events, Working(k)))
  {
  }

  lemma StepShapes(c: Config, s: State, st: Step, events: seq<Calls.Next>)
    requires Enabled(s, st) && StopOrder(s) && Shaped(s, events)
    ensures Shaped(Apply(c, s, st), Seen(events, st))
  {
    match st
    case Select(b) => SelectShapes(c, s, b, events);
    case Working(k) => WorkShapes(s, k, events);
    case _ =>
  }

  lemma ExpiringCalls(before: seq<Calls.Call>, inv: nat, req: string)
    ensures before + Calls.InvokeCalls(inv, req, true) ==
            before + Calls.InvokeCalls(inv, req, false) + [Calls.ForceFlush]
  {
    var calls := [Calls.InvokePusher(inv), Calls.InvokeProcessor(req)];
    assert Calls.InvokeCalls(inv, req, false) == calls;
    assert Calls.InvokeCalls(inv, req, true) == calls + [Calls.ForceFlush];
    assert before + (calls + [Calls.ForceFlush]) == before + calls + [Calls.ForceFlush];
  }

  lemma LoopInvoke(front: seq<Calls.Next>, req: string, expires: bool, stopping: bool)
    requires AllInvokes(front)
    ensures Calls.LoopCalls(front + [Calls.AnInvoke(req, expires)], 0, stopping) ==
            Calls.LoopCalls(front, 0, stopping) + Calls.InvokeCalls(|front|, req, expires)
  {
    LoopAppend(front, Calls.AnInvoke(req, expires), 0, stopping);
    LoopOne(Calls.AnInvoke(req, expires), |front|, stopping);
  }

  lemma Expire(front: seq<Calls.Next>, req: string, stopping: bool)
    requires AllInvokes(front)
    ensures Calls.LoopCalls(front + [Calls.AnInvoke(req, true)], 0, stopping) ==
            Calls.LoopCalls(front + [Calls.AnInvoke(req, false)], 0, stopping) + [Calls.ForceFlush]
  {
    LoopInvoke(front, req, true, stopping);
    LoopInvoke(front, req, false, stopping);
    ExpiringCalls(Calls.LoopCalls(front, 0, stopping), |front|, req);
  }

  /** One more event, and the calls it brings. */
  lemma LoopGrows(events: seq<Calls.Next>, e: Calls.Next, a: bool, b: bool, made: seq<Calls.Call>, due: seq<Calls.Call>)
    requires AllInvokes(events) && Calls.LoopCalls(events, 0, a) == made
    requires due == match e
                    case AnInvoke(req, expires) => Calls.InvokeCalls(|events|, req, expires)
                    case AShutdown => if b then [] else Calls.STOP_CALLS
                    case _ => []
    ensures Calls.LoopCalls(events + [e], 0, b) == made + due
  {
    InvokesIgnoreStopping(events, 0, a, b);
    LoopAppend(events, e, 0, b);
    LoopOne(e, |events|, b);
  }

  lemma NewEventTied(c: Config, s: State, st: Step, events: seq<Calls.Next>, made: seq<Calls.Call>)
    requires Enabled(s, st) && StopOrder(s) && Tied(s, events, made)
    requires (st.Working? && (st.k.Invocation? || st.k.NextEventFails?)) || st == Halting(ShutdownEvent)
    ensures Tied(Apply(c, s, st), Seen(events, st), made + Made(s, st))
  {
    StepShapes(c, s, st, events);
    var e := Seen(events, st)[|events|];
    assert Seen(events, st) == events + [e];
    assert Due(s) == [] && Made(s, st) == [];
    assert made + [] == made;
    LoopGrows(events, e, StoppedByOther(s), StoppedByOther(Apply(c, s, st)), made, Due(Apply(c, s, st)));
  }

  lemma ExpiryTied(c: Config, s: State, events: seq<Calls.Next>, made: seq<Calls.Call>)
    requires Enabled(s, Working(SeeDeadline)) && StopOrder(s) && Tied(s, events, made)
    ensures Tied(Apply(c, s, Working(SeeDeadline)), Seen(events, Working(SeeDeadline)), made + [Calls.ForceFlush])
  {
    StepShapes(c, s, Working(SeeDeadline), events);
    var front, last := events[..|events| - 1], events[|events| - 1];
    assert events == front + [Calls.AnInvoke(last.req, false)];
    assert Seen(events, Working(SeeDeadline)) == front + [Calls.AnInvoke(last.req, true)];
    Expire(front, last.req, StoppedByOther(s));
  }

  lemma SameEvents(s: State, s': State, events: seq<Calls.Next>)
    requires Shaped(s, events) && Shaped(s', events)
    requires !s.stop.phase.NotStopping? ==> s'.stop.byShutdown == s.stop.byShutdown && !s'.stop.phase.NotStopping?
    ensures Calls.LoopCalls(events, 0, StoppedByOther(s')) == Calls.LoopCalls(events, 0, StoppedByOther(s))
  {
    var a, b := StoppedByOther(s), StoppedByOther(s');
    if |events| == s.nextInv {
      InvokesIgnoreStopping(events, 0, a, b);
    } else if events[s.nextInv].Fails? {
      var front := events[..s.nextInv];
      assert events == front + [Calls.Fails];
      InvokesIgnoreStopping(front, 0, a, b);
      LoopAppend(front, Calls.Fails, 0, a);
      LoopAppend(front, Calls.Fails, 0, b);
      LoopOne(Calls.Fails, |front|, a);
      LoopOne(Calls.Fails, |front|, b);
    }
  }

  lemma SelectMakesDue(c: Config, s: State, b: Branch)
    requires SelectEnabled(s, b)
    ensures Due(s) == Made(s, Select(b)) + Due(ApplySelect(c, s, b))
  {
  }

  lemma HaltMakesDue(s: State, h: Halt)
    requires HaltEnabled(s, h) && !h.ShutdownEvent?
    requires s.w.InStop? ==> !s.stop.phase.NotStopping?
    ensures Due(s) == Made(s, Halting(h)) + Due(ApplyHalt(s, h))
  {
  }

  predicate ChangesEvents(st: Step) {
    || (st.Working? && (st.k.Invocation? || st.k.SeeDeadline? || st.k.NextEventFails?))
    || st == Halting(ShutdownEvent)
  }

  lemma OutcomeMakesDue(c: Config, s: State, o: Outcome)
    requires OutcomeEnabled(s, o) && StopOrder(s)
    ensures Due(s) == Due(ApplyOutcome(c, s, o))
  {
  }

  lemma MadeWasDue(c: Config, s: State, st: Step)
    requires Enabled(s, st) && StopOrder(s) && !ChangesEvents(st)
    ensures Due(s) == Made(s, st) + Due(Apply(c, s, st))
  {
    match st
    case Select(b) => SelectMakesDue(c, s, b);
    case Ending(o) => OutcomeMakesDue(c, s, o);
    case Halting(h) => HaltMakesDue(s, h);
    case _ =>
  }

  /** Who set the stopping flag does not change once it is set. */
  lemma StoppingLasts(c: Config, s: State, st: Step)
    requires Enabled(s, st)
    ensures !s.stop.phase.NotStopping? ==>
              Apply(c, s, st).stop.byShutdown == s.stop.byShutdown && !Apply(c, s, st).stop.phase.NotStopping?
  {
  }

  lemma Retie(s: State, s': State, events: seq<Calls.Next>, made: seq<Calls.Call>, now: seq<Calls.Call>)
    requires Tied(s, events, made) && Shaped(s', events) && Due(s) == now + Due(s')
    requires !s.stop.phase.NotStopping? ==> s'.stop.byShutdown == s.stop.byShutdown && !s'.stop.phase.NotStopping?
    ensures Tied(s', events, made + now)
  {
    SameEvents(s, s', events);
    assert made + (now + Due(s')) == made + now + Due(s');
  }

  lemma OtherTied(c: Config, s: State, st: Step, events: seq<Calls.Next>, made: seq<Calls.Call>)
    requires Enabled(s, st) && StopOrder(s) && Tied(s, events, made) && !ChangesEvents(st)
    ensures Tied(Apply(c, s, st), events, made + Made(s, st))
  {
    StepShapes(c, s, st, events);
    StoppingLasts(c, s, st);
    MadeWasDue(c, s, st);
    assert Seen(events, st) == events;
    Retie(s, Apply(c, s, st), events, made, Made(s, st));
  }

  lemma StepTies(c: Config, s: State, st: Step, events: seq<Calls.Next>, made: seq<Calls.Call>)
    requires Enabled(s, st) && StopOrder(s) && Tied(s, events, made)
    ensures Tied(Apply(c, s, st), Seen(events, st), made + Made(s, st))
  {
    match st
    case Working(Invocation(_)) => NewEventTied(c, s, st, events, made);
    case Working(NextEventFails) => NewEventTied(c, s, st, events, made);
    case Halting(ShutdownEvent) => NewEventTied(c, s, st, events, made);
    case Working(SeeDeadline) => ExpiryTied(c, s, events, made);
    case _ => OtherTied(c, s, st, events, made);
  }

  lemma {:induction false} RunIsTied(c: Config, ss: seq<State>, steps: seq<Step>, k: nat)
    requires IsRun(c, ss, steps) && k <= |steps|
    ensures Tied(ss[k], EventsSeen(steps, k), CallsMade(c, ss, steps, k))
  {
    if k > 0 {
      RunIsTied(c, ss, steps, k - 1);
      RunStopsInOrder(c, ss, steps, k - 1);
      StepTies(c, ss[k - 1], steps[k - 1], EventsSeen(steps, k - 1), CallsMade(c, ss, steps, k - 1));
    }
  }

  /** In every run the calls completed so far, followed by those the worker is on its way to, are exactly the calls of
      the event loop on the events seen - pusher before processor in each invocation, a force flush where the context
      ended it, the components taken down last and in order. */
  lemma RunMakesTheLoopsCalls(c: Config, ss: seq<State>, steps: seq<Step>, k: nat)
    requires IsRun(c, ss, steps) && k <= |steps|
    ensures CallsMade(c, ss, steps, k) + Due(ss[k]) == Calls.LoopCalls(EventsSeen(steps, k), 0, StoppedByOther(ss[k]))
    ensures Calls.InPairs(CallsMade(c, ss, steps, k) + Due(ss[k]))
    ensures Calls.StopsLast(CallsMade(c, ss, steps, k) + Due(ss[k]))
  {
    RunIsTied(c, ss, steps, k);
    Calls.LoopCallsAreOrdered(EventsSeen(steps, k), 0, StoppedByOther(ss[k]));
  }
}
