/** The pusher as a first-in first-out queue with at most one flush in flight. */
module Queue {
  import opened Framing
  import opened Telemetry
  import opened PusherState
  import opened Pipeline
  import opened Conservation
  import opened Regime

  /** All records in the order of the places they have reached: departed, in flight, buffered. */
  function Line(p: Pusher): seq<Rec> {
    Recs(p.departed) + Flat(p.flushes) + JobRecs(p) + p.buf.recs
  }

  /** The bytes in flight: in flush goroutines, then in a push by the loop. */
  function FlightBytes(p: Pusher): Bytes {
    (if |p.flushes| > 0 then p.flushes[0].load.bytes else []) + (if p.pc.Pushing? then p.pc.load.bytes else [])
  }

  predicate InLine(p: Pusher) {
    Line(p) == p.received
  }

  /** Two adjacent stretches of the arrival order can trade places only if one of them is empty. */
  lemma Swap(a: seq<Rec>, x: seq<Rec>, y: seq<Rec>, b: seq<Rec>, received: seq<Rec>)
    requires InArrivalOrder(received) && a + x + y + b == received
    ensures a + y + x + b == received <==> |x| == 0 || |y| == 0
  {
    if |x| == 0 || |y| == 0 {
      assert x + y == y + x;
      assert a + y + x + b == a + x + y + b;
    } else {
      assert received[|a|] == x[0] && received[|a| + |x|] == y[0];
      assert (a + y + x + b)[|a|] == y[0];
    }
  }

  /** What leaves for good when the push of flush k returns. */
  function Leaving(c: Config, p: Pusher, k: nat, ok: bool): seq<Rec>
    requires k < |p.flushes|
  {
    if ok then p.flushes[k].load.recs else Dropped(p.flushes[k].load, c.bufferSize).recs
  }

  /** The step lets younger records pass older ones: a push by the loop returns while a flush holds records, a flush
      other than the oldest lets records go, or a flush other than the youngest hands records back. */
  predicate Overtakes(c: Config, p: Pusher, st: Step) {
    match st
    case Ending(PushReturn(_)) => |JobRecs(p)| > 0 && |Flat(p.flushes)| > 0
    case Ending(FlushReturn(k, ok)) => k < |p.flushes| && |Leaving(c, p, k, ok)| > 0 && |Flat(p.flushes[..k])| > 0
    case Select(FlushResponse(k)) => k < |p.flushes| && |p.flushes[k].load.recs| > 0 && |Flat(p.flushes[k + 1..])| > 0
    case _ => false
  }

  lemma ReceiveInLine(p: Pusher, bytes: Bytes, bodies: seq<Bytes>)
    requires InLine(p) && !p.pc.Pushing?
    ensures InLine(Receive(p, bytes, bodies))
  {
    var recs := Numbered(bodies, |p.received|);
    assert Line(Receive(p, bytes, bodies)) == Line(p) + recs;
  }

  lemma RegroupStart(d: seq<Rec>, f: seq<Rec>, b: seq<Rec>)
    ensures d + (f + b) + [] + [] == d + f + [] + b
  {
  }

  lemma RegroupReply(d: seq<Rec>, f1: seq<Rec>, l: seq<Rec>, f2: seq<Rec>, b: seq<Rec>)
    ensures d + (f1 + l + f2) + [] + b == (d + f1) + l + f2 + b
    ensures d + (f1 + f2) + [] + (l + b) == (d + f1) + f2 + l + b
  {
  }

  lemma StartFlushInLine(p: Pusher)
    requires InLine(p) && !p.pc.Pushing?
    ensures InLine(StartFlush(p))
  {
    var f := Sending(p.ctx, p.buf);
    FlatConcat(p.flushes, [f]);
    FlatOne(f);
    RegroupStart(Recs(p.departed), Flat(p.flushes), p.buf.recs);
    assert JobRecs(p) == [] && JobRecs(StartFlush(p)) == [];
  }

  lemma StartPushInLine(p: Pusher, job: Job)
    requires InLine(p) && !p.pc.Pushing?
    ensures InLine(StartPush(p, job))
  {
    assert Line(StartPush(p, job)) == Line(p);
  }

  lemma DepartAppends(ds: seq<Departure>, recs: seq<Rec>, fate: Fate)
    ensures Recs(ds + Depart(recs, fate)) == Recs(ds) + recs
  {
  }

  lemma PushReturnsInLine(p: Pusher, ok: bool)
    requires InLine(p) && InArrivalOrder(p.received) && p.pc.Pushing?
    ensures InLine(PushReturns(p, ok)) <==> |JobRecs(p)| == 0 || |Flat(p.flushes)| == 0
  {
    var p', fate := PushReturns(p, ok), if ok then Delivered else LostToFailedPush;
    assert p'.departed == p.departed + Depart(p.pc.load.recs, fate);
    assert p'.flushes == p.flushes && p'.buf == p.buf && p'.received == p.received && JobRecs(p') == [];
    DepartAppends(p.departed, p.pc.load.recs, fate);
    Swap(Recs(p.departed), Flat(p.flushes), JobRecs(p), p.buf.recs, p.received);
    assert Line(p') == Recs(p.departed) + JobRecs(p) + Flat(p.flushes) + p.buf.recs;
  }

  lemma Regroup(d: seq<Rec>, f1: seq<Rec>, gone: seq<Rec>, rest: seq<Rec>, f2: seq<Rec>, j: seq<Rec>, b: seq<Rec>)
    ensures d + (f1 + (gone + rest) + f2) + j + b == d + f1 + gone + (rest + f2 + j + b)
    ensures (d + gone) + (f1 + rest + f2) + j + b == d + gone + f1 + (rest + f2 + j + b)
  {
  }

  lemma LeavingInLine(p: Pusher, p': Pusher, k: nat, gone: seq<Rec>)
    requires InLine(p) && InArrivalOrder(p.received) && k < |p.flushes| == |p'.flushes|
    requires p' == p.(flushes := p.flushes[k := p'.flushes[k]], departed := p'.departed)
    requires Recs(p'.departed) == Recs(p.departed) + gone
    requires p.flushes[k].load.recs == gone + p'.flushes[k].load.recs
    ensures InLine(p') <==> |gone| == 0 || |Flat(p.flushes[..k])| == 0
  {
    FlatAt(p.flushes, k, p'.flushes[k]);
    var d, f1, f2, rest := Recs(p.departed), Flat(p.flushes[..k]), Flat(p.flushes[k + 1..]), p'.flushes[k].load.recs;
    Regroup(d, f1, gone, rest, f2, JobRecs(p), p.buf.recs);
    Swap(d, f1, gone, rest + f2 + JobRecs(p) + p.buf.recs, p.received);
  }

  lemma FlushReturnsInLine(c: Config, p: Pusher, k: nat, ok: bool)
    requires InLine(p) && InArrivalOrder(p.received) && k < |p.flushes| && Framed(p.flushes[k].load)
    ensures InLine(FlushReturns(c, p, k, ok)) <==> |Leaving(c, p, k, ok)| == 0 || |Flat(p.flushes[..k])| == 0
  {
    var load, gone := p.flushes[k].load, Leaving(c, p, k, ok);
    if ok {
      DepartAppends(p.departed, gone, Delivered);
      assert load.recs == gone + [];
    } else {
      CutFramed(load, c.bufferSize);
      DepartAppends(p.departed, gone, LostToOverflow);
    }
    LeavingInLine(p, FlushReturns(c, p, k, ok), k, gone);
  }

  lemma TakeReplyInLine(p: Pusher, k: nat)
    requires InLine(p) && InArrivalOrder(p.received) && k < |p.flushes| && Framed(p.flushes[k].load) && p.pc.Selecting?
    ensures InLine(TakeReply(p, k)) <==> |p.flushes[k].load.recs| == 0 || |Flat(p.flushes[k + 1..])| == 0
  {
    var p', load := TakeReply(p, k), p.flushes[k].load;
    EmptyIffNoRecords(load);
    FlatAt(p.flushes, k, p.flushes[k]);
    var d, f1, f2 := Recs(p.departed), Flat(p.flushes[..k]), Flat(p.flushes[k + 1..]);
    RegroupReply(d, f1, load.recs, f2, p.buf.recs);
    assert p'.buf.recs == load.recs + p.buf.recs;
    assert JobRecs(p) == [] && JobRecs(p') == [];
    Swap(d + f1, load.recs, f2, p.buf.recs, p.received);
  }

  lemma SelectInLine(c: Config, s: State, b: Branch)
    requires SelectEnabled(s, b) && InLine(s.p) && InArrivalOrder(s.p.received)
    requires b.FlushResponse? ==> Framed(s.p.flushes[b.k].load)
    ensures InLine(ApplySelect(c, s, b).p) <==> !Overtakes(c, s.p, Select(b))
  {
    match b
    case BytesIn => ReceiveInLine(s.p, s.proc.pc.bytes, if s.proc.pc.Emitting? then s.proc.pc.bodies else []);
    case RuntimeDone =>
      if IsDone(s.p.ctx, s.dead) {
        StartPushInLine(s.p, ForRuntimeDone);
      } else {
        StartFlushInLine(s.p);
      }
    case ContextDone => StartPushInLine(s.p, ForContextDone);
    case Invoke => StartFlushInLine(s.p.(ctx := Of(s.w.inv), doneC := Some(s.w.inv)));
    case FlushResponse(k) => TakeReplyInLine(s.p, k);
    case StopMessage => StartPushInLine(s.p, ForStop);
    case ForceFlush => StartPushInLine(s.p, ForForce(s.force.queue.value));
  }

  lemma OutcomeInLine(c: Config, s: State, o: Outcome)
    requires OutcomeEnabled(s, o) && InLine(s.p) && InArrivalOrder(s.p.received)
    requires o.FlushReturn? ==> Framed(s.p.flushes[o.k].load)
    ensures InLine(ApplyOutcome(c, s, o).p) <==> !Overtakes(c, s.p, Ending(o))
  {
    match o
    case PushReturn(ok) =>
      assert ApplyOutcome(c, s, o).p == PushReturns(s.p, ok);
      PushReturnsInLine(s.p, ok);
    case FlushReturn(k, ok) => FlushReturnsInLine(c, s.p, k, ok);
    case DoneTaken => assert Line(ApplyOutcome(c, s, o).p) == Line(s.p);
    case StoppedTaken => assert Line(ApplyOutcome(c, s, o).p) == Line(s.p);
  }

  /** A step keeps the order of arrival exactly when it overtakes nothing. */
  lemma StepInLine(c: Config, s: State, st: Step)
    requires Enabled(s, st) && InLine(s.p) && AllFramed(s.p) && Balanced(s.p)
    ensures InLine(Apply(c, s, st).p) <==> !Overtakes(c, s.p, st)
  {
    match st
    case Select(b) => SelectInLine(c, s, b);
    case Ending(o) => OutcomeInLine(c, s, o);
    case _ => OthersLeavePusher(c, s, st);
  }

  predicate QueueUpTo(ss: seq<State>, k: nat)
    requires k < |ss|
  {
    forall j :: 0 <= j <= k ==> InLine(ss[j].p)
  }

  predicate NoOvertakingUpTo(c: Config, ss: seq<State>, steps: seq<Step>, k: nat)
    requires k < |ss| && k <= |steps|
  {
    forall j :: 0 <= j < k ==> !Overtakes(c, ss[j].p, steps[j])
  }

  lemma OneMore(c: Config, ss: seq<State>, steps: seq<Step>, k: nat)
    requires 0 < k < |ss| && k <= |steps|
    ensures QueueUpTo(ss, k) <==> QueueUpTo(ss, k - 1) && InLine(ss[k].p)
    ensures NoOvertakingUpTo(c, ss, steps, k) <==>
            NoOvertakingUpTo(c, ss, steps, k - 1) && !Overtakes(c, ss[k - 1].p, steps[k - 1])
  {
  }

  /** In every run whatsoever, the pusher has been a queue all along exactly if no step so far has overtaken. */
  lemma {:induction false} QueueExactlyUnlessOvertaken(c: Config, ss: seq<State>, steps: seq<Step>, k: nat)
    requires c.codec.Sound() && IsRun(c, ss, steps) && k <= |steps|
    ensures QueueUpTo(ss, k) <==> NoOvertakingUpTo(c, ss, steps, k)
  {
    if k == 0 {
      assert Line(INITIAL) == [];
    } else {
      QueueExactlyUnlessOvertaken(c, ss, steps, k - 1);
      OneMore(c, ss, steps, k);
      if QueueUpTo(ss, k - 1) {
        RunIsSound(c, ss, steps, k - 1);
        StepInLine(c, ss[k - 1], steps[k - 1]);
      }
    }
  }

  lemma CalmNeverOvertakes(c: Config, s: State, st: Step)
    requires Enabled(s, st) && Calm(c, s)
    requires StopTaken(s.p.pc) ==> s.stop.byShutdown
    ensures !Overtakes(c, s.p, st)
  {
  }

  /** Once the pusher has its stop message it has it for good, and who stopped it does not change. */
  lemma StopPersists(c: Config, s: State, st: Step)
    requires Enabled(s, st) && StopOrder(s) && StopTaken(s.p.pc)
    ensures StopTaken(Apply(c, s, st).p.pc) && Apply(c, s, st).stop.byShutdown == s.stop.byShutdown
  {
    StepKeepsStopOrder(c, s, st);
  }

  lemma {:induction false} RunIsInLine(c: Config, ss: seq<State>, steps: seq<Step>, k: nat)
    requires c.codec.Sound() && IsRun(c, ss, steps) && NoDeadline(steps) && k <= |steps|
    requires StopTaken(ss[k].p.pc) ==> ss[k].stop.byShutdown
    ensures InLine(ss[k].p)
  {
    if k == 0 {
      assert Line(INITIAL) == [];
    } else {
      var s, st := ss[k - 1], steps[k - 1];
      RunIsCalm(c, ss, steps, k - 1);
      RunIsSound(c, ss, steps, k - 1);
      if StopTaken(s.p.pc) {
        StopPersists(c, s, st);
      }
      RunIsInLine(c, ss, steps, k - 1);
      CalmNeverOvertakes(c, s, st);
      StepInLine(c, s, st);
    }
  }

  /** FIFO refinement: until the pusher takes its stop message, in either mode, what it received is exactly what has
      departed (delivered or lost, in order of departure), then what is in flight, then the buffer - record for
      record and byte for byte. */
  lemma FifoRefinement(c: Config, ss: seq<State>, steps: seq<Step>, k: nat)
    requires c.codec.Sound() && IsRun(c, ss, steps) && NoDeadline(steps) && k <= |steps|
    requires !StopTaken(ss[k].p.pc)
    ensures Line(ss[k].p) == ss[k].p.received
    ensures Frame(Bodies(ss[k].p.received)) ==
            Frame(Bodies(Recs(ss[k].p.departed))) + FlightBytes(ss[k].p) + ss[k].p.buf.bytes
  {
    var p := ss[k].p;
    RunIsInLine(c, ss, steps, k);
    RunIsCalm(c, ss, steps, k);
    RunIsSound(c, ss, steps, k);
    var d, f, j, b := Recs(p.departed), Flat(p.flushes), JobRecs(p), p.buf.recs;
    FrameFour(d, f, j, b);
    if |p.flushes| == 1 {
      FlatOne(p.flushes[0]);
      assert p.flushes == [p.flushes[0]];
    }
    assert Frame(Bodies([])) == [];
  }

  lemma FrameFour(d: seq<Rec>, f: seq<Rec>, j: seq<Rec>, b: seq<Rec>)
    ensures Frame(Bodies(d + f + j + b)) == Frame(Bodies(d)) + (Frame(Bodies(f)) + Frame(Bodies(j))) + Frame(Bodies(b))
  {
    FrameBodies(d + f + j, b);
    FrameBodies(d + f, j);
    FrameBodies(d, f);
  }

  lemma FrameBodies(a: seq<Rec>, b: seq<Rec>)
    ensures Frame(Bodies(a + b)) == Frame(Bodies(a)) + Frame(Bodies(b))
  {
    assert Bodies(a + b) == Bodies(a) + Bodies(b);
    FrameConcat(Bodies(a), Bodies(b));
  }

  /** At most one flush is in flight in every run whose Invokes end through done, expired contexts included. While one
      is and the pusher has no stop message, the done channel is the waiting invocation's; an invocation begins with no
      flush in flight, so the flush started since, and its response releases that invocation. */
  lemma AtMostOneFlush(c: Config, ss: seq<State>, steps: seq<Step>, k: nat)
    requires IsRun(c, ss, steps) && EndsThroughDone(steps) && k <= |steps|
    ensures |ss[k].p.flushes| <= 1
    ensures |ss[k].p.flushes| == 1 && !StopTaken(ss[k].p.pc) ==>
              && Invoked(ss[k].w)
              && ss[k].p.doneC == Some(ss[k].w.inv)
              && (ss[k].p.flushes[0].under == Of(ss[k].w.inv) || ss[k].p.flushes[0].under == Background)
    ensures k < |steps| && steps[k] == Select(Invoke) ==> |ss[k].p.flushes| == 0
    ensures k < |steps| && steps[k].Select? && steps[k].b.FlushResponse? ==>
              && |ss[k].p.flushes| == 1
              && ss[k + 1].p.pc == SendingDone(false)
              && ss[k + 1].p.doneC == Some(ss[k].w.inv)
  {
    RunIsPaired(c, ss, steps, k);
  }

  /** If no context expires early, the context of a flush in flight is the waiting invocation's and live. */
  lemma FlushContextIsLive(c: Config, ss: seq<State>, steps: seq<Step>, k: nat)
    requires IsRun(c, ss, steps) && NoDeadline(steps) && k <= |steps| && !StopTaken(ss[k].p.pc)
    ensures |ss[k].p.flushes| == 1 ==>
              && Invoked(ss[k].w)
              && ss[k].p.flushes[0].under == ss[k].p.ctx == Of(ss[k].w.inv)
              && ss[k].w.inv !in ss[k].dead
  {
    RunIsCalm(c, ss, steps, k);
  }

  /** Invocation i is behind the worker. */
  predicate Over(s: State, i: nat) {
    i < s.nextInv && Current(s.w) != Some(i)
  }

  predicate WorkerNumbered(s: State) {
    Current(s.w).Some? ==> Current(s.w).value < s.nextInv
  }

  lemma StepNumbers(c: Config, s: State, st: Step, i: nat)
    requires Enabled(s, st) && WorkerNumbered(s)
    ensures WorkerNumbered(Apply(c, s, st))
    ensures Over(s, i) ==> Over(Apply(c, s, st), i)
    ensures st == Ending(DoneTaken) ==> Over(Apply(c, s, st), s.w.inv)
  {
  }

  lemma {:induction false} RunNumbers(c: Config, ss: seq<State>, steps: seq<Step>, k: nat)
    requires IsRun(c, ss, steps) && k <= |steps|
    ensures WorkerNumbered(ss[k])
  {
    if k > 0 {
      RunNumbers(c, ss, steps, k - 1);
      StepNumbers(c, ss[k - 1], steps[k - 1], 0);
    }
  }

  lemma {:induction false} OverStays(c: Config, ss: seq<State>, steps: seq<Step>, i: nat, j: nat, k: nat)
    requires IsRun(c, ss, steps) && j <= k <= |steps|
    requires Over(ss[j], i)
    ensures Over(ss[k], i)
  {
    if k > j {
      OverStays(c, ss, steps, i, j, k - 1);
      RunNumbers(c, ss, steps, k - 1);
      StepNumbers(c, ss[k - 1], steps[k - 1], i);
    }
  }

  /** In every run at all, each invocation gets at most one done. */
  lemma OneDonePerInvocation(c: Config, ss: seq<State>, steps: seq<Step>, j: nat, k: nat)
    requires IsRun(c, ss, steps) && j < k < |steps|
    requires steps[j] == Ending(DoneTaken) && steps[k] == Ending(DoneTaken)
    ensures ss[j].w.inv != ss[k].w.inv
  {
    RunNumbers(c, ss, steps, j);
    StepNumbers(c, ss[j], steps[j], 0);
    OverStays(c, ss, steps, ss[j].w.inv, j + 1, k);
  }
}
