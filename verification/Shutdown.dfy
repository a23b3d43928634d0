/** Stop: a clean state at the Shutdown event, the processor's last output before the stop message, a return after
    finitely many steps unless the worker is doomed or the pusher lost, and what is left behind. */
module Shutdown {
  import opened Telemetry
  import opened Batches
  import opened PusherState
  import opened Pipeline
  import opened Conservation
  import opened Regime
  import opened Queue
  import opened DoneChannel
  import opened Blocking
  import opened Doom
  import opened HandOver

  /** The body of Stop runs at most once, whoever calls it and how often. */
  lemma StopRunsOnce(c: Config, ss: seq<State>, steps: seq<Step>, k: nat)
    requires IsRun(c, ss, steps) && k <= |steps|
    ensures ss[k].stop.begun <= 1
    ensures k < |steps| && ss[k].stop.begun == 1
            && (steps[k] == Halting(CallStop) || steps[k] == Halting(ShutdownEvent)) ==>
              ss[k + 1].stop == ss[k].stop
  {
    RunStopsInOrder(c, ss, steps, k);
  }

  /** Where every Invoke ends through its done channel, the Shutdown event finds no flush in flight and no done
      channel. */
  lemma ShutdownStartsClean(c: Config, ss: seq<State>, steps: seq<Step>, k: nat)
    requires IsRun(c, ss, steps) && EndsThroughDone(steps) && k < |steps|
    requires steps[k] == Halting(ShutdownEvent) && ss[k].stop.phase.NotStopping?
    ensures |ss[k].p.flushes| == 0 && ss[k].p.doneC.None?
  {
    RunIsPaired(c, ss, steps, k);
  }

  /** Before the pusher is told to stop it has everything the processor ever wrote. */
  lemma LastOutputPrecedesStop(c: Config, ss: seq<State>, steps: seq<Step>, k: nat)
    requires IsRun(c, ss, steps) && k < |steps| && steps[k] == Select(StopMessage)
    ensures ss[k].proc.pc.Gone? && Bodies(ss[k].p.received) == Replay(c.codec, ss[k].inputs).out
  {
    RunStopsInOrder(c, ss, steps, k);
    RunIsInStep(c, ss, steps, k);
  }

  // The signal handler cancels NextEvent before it calls Stop.

  /** NextEvent hands the worker an Invoke or a Shutdown event. */
  predicate HandsEvent(st: Step) {
    (st.Working? && st.k.Invocation?) || st == Halting(ShutdownEvent)
  }

  /** The events the worker is handed from j to k. */
  function EventsHanded(steps: seq<Step>, j: nat, k: nat): nat
    requires j <= k <= |steps|
    decreases k
  {
    if k == j then 0
    else EventsHanded(steps, j, k - 1)
         + (if HandsEvent(steps[k - 1]) then 1 else 0)
  }

  /** The events the worker can still be given once its context is cancelled. */
  function Fetched(s: State): nat {
    if s.feed.OneFetched? && s.w.Waiting? then 1 else 0
  }

  lemma StepHandsFetched(c: Config, s: State, st: Step)
    requires Enabled(s, st) && StopOrder(s) && !s.feed.Live?
    ensures !Apply(c, s, st).feed.Live?
    ensures Fetched(Apply(c, s, st)) + EventsHanded([st], 0, 1) <= Fetched(s)
  {
    assert EventsHanded([st], 0, 0) == 0;
  }

  lemma {:induction false} OnlyFetchedHanded(c: Config, ss: seq<State>, steps: seq<Step>, j: nat, k: nat)
    requires IsRun(c, ss, steps) && j <= k <= |steps| && !ss[j].feed.Live?
    ensures !ss[k].feed.Live? && EventsHanded(steps, j, k) + Fetched(ss[k]) <= Fetched(ss[j])
    decreases k
  {
    if k > j {
      OnlyFetchedHanded(c, ss, steps, j, k - 1);
      RunStopsInOrder(c, ss, steps, k - 1);
      StepHandsFetched(c, ss[k - 1], steps[k - 1]);
      assert EventsHanded([steps[k - 1]], 0, 0) == 0;
    }
  }

  /** After a signal the worker is given at most one more event, and that only if it was waiting for one. */
  lemma SignalEndsTheLoop(c: Config, ss: seq<State>, steps: seq<Step>, j: nat, k: nat)
    requires IsRun(c, ss, steps) && j < k <= |steps| && steps[j] == Halting(CallStop)
    ensures EventsHanded(steps, j, k) <= if ss[j].w.Waiting? then 1 else 0
    decreases k
  {
    RunStopsInOrder(c, ss, steps, j);
    OnlyFetchedHanded(c, ss, steps, j + 1, k);
    HandedFrom(steps, j, k);
  }

  lemma {:induction false} HandedFrom(steps: seq<Step>, j: nat, k: nat)
    requires j < k <= |steps| && steps[j] == Halting(CallStop)
    ensures EventsHanded(steps, j, k) == EventsHanded(steps, j + 1, k)
    decreases k
  {
    if k > j + 1 {
      HandedFrom(steps, j, k - 1);
    }
  }

  // The end of the process.

  /** The body of Stop has begun and has not returned. */
  predicate Unfinished(s: State) {
    !s.stop.phase.NotStopping? && !s.stop.phase.Finished?
  }

  /** A caller sends on the channel that main waits on: the one that ran Stop's body, or handleInvocations when Stop
      returns false to it at once. A signal handler whose call was turned away sleeps first, and is left aside. */
  predicate LetsMainReturn(s: State, st: Step) {
    st == Ending(StoppedTaken) || (st == Halting(ShutdownEvent) && !s.stop.phase.NotStopping?)
  }

  /** In every run, main returns with Stop's body still running exactly if a Shutdown event finds it running; it is
      then a signal's, and the event the one that was already fetched. */
  lemma MainOvertakesStopExactlyWhen(c: Config, ss: seq<State>, steps: seq<Step>, k: nat)
    requires IsRun(c, ss, steps) && k < |steps|
    ensures LetsMainReturn(ss[k], steps[k]) && Unfinished(ss[k + 1]) <==>
            steps[k] == Halting(ShutdownEvent) && Unfinished(ss[k])
    ensures steps[k] == Halting(ShutdownEvent) && Unfinished(ss[k]) ==>
              !ss[k].stop.byShutdown && ss[k].feed.OneFetched? && ss[k + 1].w.Returned?
  {
    RunStopsInOrder(c, ss, steps, k);
  }

  // The return of Stop, whoever called it.

  /** Stop is past the producer's shutdown and has not finished. */
  predicate Stopping(s: State) {
    s.stop.phase.ToProc? || s.stop.phase.AwaitProc? || s.stop.phase.ToPush? || s.stop.phase.AwaitPush?
  }

  /** The step Stop waits for. */
  function StopStep(s: State): Step {
    if s.stop.phase.ToProc? then (if s.proc.pc.Idle? then Halting(StopProcessor) else ChainStep(s, TheProcessor))
    else if s.p.pc.Pushing? || s.p.pc.SendingDone? then PusherTurn(s)
    else match s.stop.phase
      case AwaitProc => if s.proc.pc.EmittingLast? then Select(BytesIn) else Halting(ProcessorStopped)
      case ToPush => Select(StopMessage)
      case _ => Ending(StoppedTaken)
  }

  /** Steps that take no part in stopping: a handler writing its answer, and further callers of Stop. */
  predicate Bystander(st: Step) {
    (st.Http? && st.i.Answer?) || st == Halting(CallStop)
  }

  /** In every reachable state Stop's step is enabled, unless the worker is doomed or the pusher lost; while the
      processor still serves, taking the steps Stop waits for makes it idle after at most eight. */
  lemma StopCanMove(c: Config, s: State)
    requires StopOrder(s) && Attached(s) && Stopping(s) && !Doomed(s) && !Lost(s)
    ensures Enabled(s, StopStep(s)) && !Bystander(StopStep(s))
    ensures s.stop.phase.ToProc? && !s.proc.pc.Idle? ==>
              var s' := Apply(c, s, StopStep(s));
              Rank(s') < Rank(s) <= 8 || s'.proc.pc.Idle?
  {
    if s.stop.phase.ToProc? && !s.proc.pc.Idle? {
      ChainMovesUnlessStuck(c, s, TheProcessor);
    }
  }

  /** Before that, Stop waits for the producer: its shutdown can return, or some handler is blocked on the processor,
      whose chain then serves it unless it needs a pusher that is in the circle or lost. */
  lemma ProducerCanStop(c: Config, ss: seq<State>, steps: seq<Step>, k: nat)
    requires IsRun(c, ss, steps) && k <= |steps| && ss[k].stop.phase.ProducerDown?
    ensures Enabled(ss[k], Halting(ProducerStopped)) || exists h :: Blocked(ss[k], AHandler(h))
    ensures forall h :: Blocked(ss[k], AHandler(h)) ==>
              if ss[k].proc.pc.Idle? || !(CyclicWait(ss[k]) || Lost(ss[k])) then Serves(c, ss[k], AHandler(h))
              else !Enabled(ss[k], ChainStep(ss[k], AHandler(h)))
  {
    RunStopsInOrder(c, ss, steps, k);
    forall h | Blocked(ss[k], AHandler(h))
      ensures if ss[k].proc.pc.Idle? || !(CyclicWait(ss[k]) || Lost(ss[k])) then Serves(c, ss[k], AHandler(h))
              else !Enabled(ss[k], ChainStep(ss[k], AHandler(h)))
    {
      StuckExactlyWhen(c, ss, steps, k, AHandler(h));
    }
    if h :| h in ss[k].handlers && ss[k].handlers[h].Offering? {
      assert Blocked(ss[k], AHandler(h));
    }
  }

  function PhaseWork(ph: StopPhase): nat {
    match ph
    case ToProc => 7
    case AwaitProc => 4
    case ToPush => 4
    case _ => 0
  }

  /** In default mode a signal can start one more flush. */
  function ProcWork(c: Config, pc: ProcPc): nat {
    var signal := if c.flushAtNextInvoke then 1 else 5;
    match pc
    case Emitting(_, _, runtimeDone) => if runtimeDone then signal + 1 else 1
    case Signalling => signal
    case EmittingLast(_) => 2
    case SayingStopped => 1
    case _ => 0
  }

  /** A context can still expire, and once expired be dropped. */
  function ContextWork(ctx: Ctx, dead: set<nat>): nat {
    if ctx.Background? then 0 else if IsDone(ctx, dead) then 2 else 3
  }

  function PusherWork(pc: Pc, context: nat): nat {
    match pc
    case Selecting => context
    case Pushing(ForContextDone, _) => 1
    case Pushing(ForStop, _) => 3
    case Pushing(_, _) => context + 1
    case SendingDone(thenStop) => if thenStop then 2 else context + 2
    case SendingStopped => 1
    case Exited => 0
  }

  function OneFlushWork(f: Flush): nat {
    if f.Sending? then 4 else 3
  }

  function FlushWork(flushes: seq<Flush>): nat {
    if |flushes| == 0 then 0 else FlushWork(flushes[..|flushes| - 1]) + OneFlushWork(flushes[|flushes| - 1])
  }

  /** The context of the current invocation can still expire. */
  function Expiring(w: Worker, dead: set<nat>): nat {
    if Current(w).Some? && Current(w).value !in dead then 1 else 0
  }

  /** The steps of the worker, one invocation that was already fetched included, but for the expiry of its context;
      `expiry` says whether an Invoke can still take its ctx.Done branch, which it does not live to do where done is
      offered. Once the processor is stopping, a worker that gets past the pusher is doomed. */
  function WorkerWork(w: Worker, feed: Feed, serving: bool, offered: bool, expiry: bool): nat {
    match w
    case Waiting => if !feed.OneFetched? then 1 else if serving then 17 else 3
    case ToPusher(_, _) => if serving then 15 else 1
    case ToProcessor(_, _) => if expiry then 7 else 3
    case Awaiting(_) => if expiry && !offered then 6 else 2
    case OfferingForce(_, _) => 5
    case AwaitingForce(_, _) => 2
    case _ => 0
  }

  function QueueWork(queue: Option<nat>): nat {
    if queue.Some? then 2 else 0
  }

  /** The work of all but the flushes. */
  function RestWork(c: Config, s: State, expiry: bool): nat {
    PhaseWork(s.stop.phase) + ProcWork(c, s.proc.pc) + PusherWork(s.p.pc, ContextWork(s.p.ctx, s.dead))
    + QueueWork(s.force.queue) + Expiring(s.w, s.dead)
    + WorkerWork(s.w, s.feed, Serving(s.proc.pc), s.p.pc.SendingDone?, expiry)
  }

  /** The work left until Stop returns. */
  function StopWork(c: Config, s: State, expiry: bool): nat {
    RestWork(c, s, expiry) + FlushWork(s.p.flushes)
  }

  lemma FlushWorkAppend(flushes: seq<Flush>, f: Flush)
    ensures FlushWork(flushes + [f]) == FlushWork(flushes) + OneFlushWork(f)
  {
    assert (flushes + [f])[..|flushes|] == flushes;
  }

  lemma {:induction false} FlushWorkUpdate(flushes: seq<Flush>, k: nat, f: Flush)
    requires k < |flushes|
    ensures FlushWork(flushes[k := f]) + OneFlushWork(flushes[k]) == FlushWork(flushes) + OneFlushWork(f)
  {
    var n := |flushes| - 1;
    if k == n {
      assert flushes[k := f][..n] == flushes[..n];
    } else {
      FlushWorkUpdate(flushes[..n], k, f);
      assert flushes[k := f][..n] == flushes[..n][k := f];
    }
  }

  lemma {:induction false} FlushWorkRemove(flushes: seq<Flush>, k: nat)
    requires k < |flushes|
    ensures FlushWork(flushes[..k] + flushes[k + 1..]) + OneFlushWork(flushes[k]) == FlushWork(flushes)
  {
    var n := |flushes| - 1;
    if k == n {
      assert flushes[..k] + flushes[k + 1..] == flushes[..n];
    } else {
      FlushWorkRemove(flushes[..n], k);
      FlushWorkAppend(flushes[..n][..k] + flushes[..n][k + 1..], flushes[n]);
      assert flushes[..k] + flushes[k + 1..] == (flushes[..n][..k] + flushes[..n][k + 1..]) + [flushes[n]];
    }
  }

  lemma {:induction false} FlushWorkBound(flushes: seq<Flush>)
    ensures FlushWork(flushes) <= 4 * |flushes|
  {
    if |flushes| > 0 {
      FlushWorkBound(flushes[..|flushes| - 1]);
    }
  }

  /** What the order of stopping means while Stop goes on. */
  predicate Winding(s: State) {
    var ph := s.stop.phase;
    && Stopping(s)
    && (s.proc.pc.EmittingLast? || s.proc.pc.SayingStopped? <==> ph.AwaitProc?)
    && (s.proc.pc.Gone? <==> ph.ToPush? || ph.AwaitPush?)
    && (StopTaken(s.p.pc) <==> ph.AwaitPush?)
    && !s.p.pc.Exited?
    && (s.w.InStop? <==> s.stop.byShutdown)
    && (s.w.Waiting? ==> !s.feed.Live?)
    && (s.feed.OneFetched? ==> s.w.Waiting? || s.w.Returned?)
    && (s.p.pc.SendingDone? ==> s.p.doneC.Some?)
  }

  lemma OrderWinds(s: State)
    requires StopOrder(s) && Attached(s) && Stopping(s)
    ensures Winding(s)
  {
  }

  /** s' is nearer to the return of Stop than s, or Stop has returned. */
  predicate Nearer(c: Config, s: State, s': State, expiry: bool) {
    StopWork(c, s', expiry) < StopWork(c, s, expiry) && (Stopping(s') || s'.stop.phase.Finished?)
  }

  predicate NearerOrStuck(c: Config, s: State, s': State, expiry: bool) {
    Nearer(c, s, s', expiry) || Doomed(s') || Lost(s')
  }

  lemma SignalNearer(c: Config, s: State, expiry: bool)
    requires Winding(s) && SelectEnabled(s, RuntimeDone)
    ensures Nearer(c, s, ApplySelect(c, s, RuntimeDone), expiry)
  {
    FlushWorkAppend(s.p.flushes, Sending(s.p.ctx, s.p.buf));
  }

  lemma InvokeNearer(c: Config, s: State, expiry: bool)
    requires Winding(s) && SelectEnabled(s, Invoke)
    ensures NearerOrStuck(c, s, ApplySelect(c, s, Invoke), expiry)
  {
    FlushWorkAppend(s.p.flushes, Sending(Of(s.w.inv), s.p.buf));
  }

  lemma ReplyNearer(c: Config, s: State, k: nat, expiry: bool)
    requires Winding(s) && SelectEnabled(s, FlushResponse(k))
    ensures Nearer(c, s, ApplySelect(c, s, FlushResponse(k)), expiry)
  {
    FlushWorkRemove(s.p.flushes, k);
  }

  lemma BufferWork(c: Config, s: State, b: Branch, expiry: bool)
    requires Winding(s) && SelectEnabled(s, b)
    requires b.BytesIn? || b.ContextDone? || b.StopMessage? || b.ForceFlush?
    ensures RestWork(c, ApplySelect(c, s, b), expiry) < RestWork(c, s, expiry)
    ensures ApplySelect(c, s, b).p.flushes == s.p.flushes && Stopping(ApplySelect(c, s, b))
  {
  }

  lemma BufferNearer(c: Config, s: State, b: Branch, expiry: bool)
    requires Winding(s) && SelectEnabled(s, b)
    requires b.BytesIn? || b.ContextDone? || b.StopMessage? || b.ForceFlush?
    ensures Nearer(c, s, ApplySelect(c, s, b), expiry)
  {
    BufferWork(c, s, b, expiry);
  }

  lemma SelectBringsStopNearer(c: Config, s: State, b: Branch, expiry: bool)
    requires Winding(s) && SelectEnabled(s, b)
    ensures NearerOrStuck(c, s, ApplySelect(c, s, b), expiry)
  {
    match b
    case RuntimeDone => SignalNearer(c, s, expiry);
    case Invoke => InvokeNearer(c, s, expiry);
    case FlushResponse(k) => ReplyNearer(c, s, k, expiry);
    case _ => BufferNearer(c, s, b, expiry);
  }

  lemma PushNearer(c: Config, s: State, ok: bool, expiry: bool)
    requires Winding(s) && OutcomeEnabled(s, PushReturn(ok))
    ensures Nearer(c, s, FinishPush(s, ok), expiry)
  {
    PushReturnMoves(s, ok);
  }

  lemma RestStays(c: Config, s: State, flushes: seq<Flush>, departed: seq<Departure>, expiry: bool)
    ensures RestWork(c, s.(p := s.p.(flushes := flushes, departed := departed)), expiry) == RestWork(c, s, expiry)
  {
  }

  lemma FlushNearer(c: Config, s: State, k: nat, ok: bool, expiry: bool)
    requires Winding(s) && OutcomeEnabled(s, FlushReturn(k, ok))
    ensures Nearer(c, s, ApplyOutcome(c, s, FlushReturn(k, ok)), expiry)
  {
    var p' := FlushReturns(c, s.p, k, ok);
    FlushWorkUpdate(s.p.flushes, k, p'.flushes[k]);
    RestStays(c, s, p'.flushes, p'.departed, expiry);
    assert p' == s.p.(flushes := s.p.flushes[k := p'.flushes[k]], departed := p'.departed);
  }

  lemma OutcomeBringsStopNearer(c: Config, s: State, o: Outcome, expiry: bool)
    requires Winding(s) && OutcomeEnabled(s, o)
    ensures Nearer(c, s, ApplyOutcome(c, s, o), expiry)
  {
    match o
    case PushReturn(ok) => PushNearer(c, s, ok, expiry);
    case FlushReturn(k, ok) => FlushNearer(c, s, k, ok, expiry);
    case _ =>
  }

  lemma WorkBringsStopNearer(c: Config, s: State, k: Work, expiry: bool)
    requires Winding(s) && WorkEnabled(s, k) && (k == SeeDeadline ==> expiry)
    ensures NearerOrStuck(c, s, ApplyWork(s, k), expiry)
  {
    assert ApplyWork(s, k).p == s.p && ApplyWork(s, k).stop == s.stop;
  }

  lemma HaltBringsStopNearer(c: Config, s: State, h: Halt, expiry: bool)
    requires Winding(s) && HaltEnabled(s, h) && !h.CallStop?
    ensures NearerOrStuck(c, s, ApplyHalt(s, h), expiry)
  {
    assert ApplyHalt(s, h).p == s.p && ApplyHalt(s, h).force == s.force;
  }

  lemma BystanderWaits(c: Config, s: State, st: Step, expiry: bool)
    requires Winding(s) && Enabled(s, st) && Bystander(st)
    ensures StopWork(c, Apply(c, s, st), expiry) == StopWork(c, s, expiry) && Stopping(Apply(c, s, st))
  {
    var s' := Apply(c, s, st);
    assert s'.p == s.p && s'.proc == s.proc && s'.w == s.w && s'.force == s.force;
    assert s'.dead == s.dead && s'.stop == s.stop;
  }

  /** Whatever is scheduled, in every reachable state every step but a bystander's brings the return of Stop nearer,
      dooms the worker or loses the pusher. */
  lemma EachStepBringsStopNearer(c: Config, s: State, st: Step, expiry: bool)
    requires StopOrder(s) && Attached(s) && Stopping(s) && Enabled(s, st) && (st == Working(SeeDeadline) ==> expiry)
    ensures var s' := Apply(c, s, st);
            if Bystander(st) then StopWork(c, s', expiry) == StopWork(c, s, expiry) && Stopping(s')
            else NearerOrStuck(c, s, s', expiry)
  {
    OrderWinds(s);
    if Bystander(st) {
      BystanderWaits(c, s, st, expiry);
    } else {
      match st
      case Select(b) => SelectBringsStopNearer(c, s, b, expiry);
      case Ending(o) => OutcomeBringsStopNearer(c, s, o, expiry);
      case Working(k) => WorkBringsStopNearer(c, s, k, expiry);
      case Halting(h) => HaltBringsStopNearer(c, s, h, expiry);
      case Http(_) =>
    }
  }

  /** The steps from j to k that are not bystanders'. */
  function Busy(steps: seq<Step>, j: nat, k: nat): nat
    requires j <= k <= |steps|
    decreases k
  {
    if k == j then 0 else Busy(steps, j, k - 1) + (if Bystander(steps[k - 1]) then 0 else 1)
  }

  predicate StoppingUpTo(ss: seq<State>, j: nat, k: nat)
    requires j <= k < |ss|
  {
    forall m :: j <= m < k ==> Stopping(ss[m])
  }

  /** Nothing is permanently stuck. */
  predicate Free(s: State) {
    !Doomed(s) && !Lost(s)
  }

  lemma WasFree(c: Config, s: State, st: Step)
    requires Enabled(s, st) && Attached(s) && Free(Apply(c, s, st))
    ensures Free(s)
  {
    if Doomed(s) {
      DoomIsPermanent(c, s, st);
    } else if Lost(s) {
      LossIsPermanent(c, s, st);
    }
  }

  /** One step of a Stop that is not stuck afterwards. */
  predicate Advances(c: Config, s: State, st: Step, s': State, expiry: bool) {
    && Free(s)
    && (Stopping(s) ==>
          && (Stopping(s') || s'.stop.phase.Finished?)
          && StopWork(c, s', expiry) + (if Bystander(st) then 0 else 1) <= StopWork(c, s, expiry))
  }

  lemma RunAdvances(c: Config, ss: seq<State>, steps: seq<Step>, k: nat, expiry: bool)
    requires IsRun(c, ss, steps) && (EndsThroughDone(steps) || expiry) && k < |steps| && Free(ss[k + 1])
    ensures Advances(c, ss[k], steps[k], ss[k + 1], expiry)
  {
    RunStopsInOrder(c, ss, steps, k);
    RunIsAttached(c, ss, steps, k);
    WasFree(c, ss[k], steps[k]);
    if Stopping(ss[k]) {
      EachStepBringsStopNearer(c, ss[k], steps[k], expiry);
    }
  }

  lemma {:induction false} FreeBefore(c: Config, ss: seq<State>, steps: seq<Step>, m: nat, k: nat)
    requires IsRun(c, ss, steps) && m <= k <= |steps| && Free(ss[k])
    ensures Free(ss[m])
    decreases k
  {
    if m < k {
      RunIsAttached(c, ss, steps, k - 1);
      WasFree(c, ss[k - 1], steps[k - 1]);
      FreeBefore(c, ss, steps, m, k - 1);
    }
  }

  /** Step m, if it is a busy one, lowers the work. */
  predicate Pays(work: seq<nat>, steps: seq<Step>, m: nat)
    requires m < |steps| < |work|
  {
    work[m + 1] + (if Bystander(steps[m]) then 0 else 1) <= work[m]
  }

  /** A quantity that each busy step lowers bounds the busy steps. */
  lemma {:induction false} BusyIsPaidFor(work: seq<nat>, steps: seq<Step>, j: nat, k: nat)
    requires j <= k <= |steps| < |work|
    requires forall m: nat :: j <= m < k ==> Pays(work, steps, m)
    ensures Busy(steps, j, k) + work[k] <= work[j]
    decreases k
  {
    if k > j {
      BusyIsPaidFor(work, steps, j, k - 1);
      assert Pays(work, steps, k - 1);
    }
  }

  function Works(c: Config, ss: seq<State>, expiry: bool): (work: seq<nat>)
    ensures |work| == |ss|
    ensures forall m :: 0 <= m < |ss| ==> work[m] == StopWork(c, ss[m], expiry)
  {
    seq(|ss|, m requires 0 <= m < |ss| => StopWork(c, ss[m], expiry))
  }

  lemma RunPays(c: Config, ss: seq<State>, steps: seq<Step>, m: nat, k: nat, expiry: bool)
    requires IsRun(c, ss, steps) && (EndsThroughDone(steps) || expiry) && m < k <= |steps|
    requires Stopping(ss[m]) && Free(ss[k])
    ensures Pays(Works(c, ss, expiry), steps, m)
  {
    FreeBefore(c, ss, steps, m + 1, k);
    RunAdvances(c, ss, steps, m, expiry);
  }

  lemma AllPay(c: Config, ss: seq<State>, steps: seq<Step>, j: nat, k: nat, expiry: bool)
    requires IsRun(c, ss, steps) && (EndsThroughDone(steps) || expiry) && j <= k <= |steps|
    requires StoppingUpTo(ss, j, k) && Free(ss[k])
    ensures forall m: nat :: j <= m < k ==> Pays(Works(c, ss, expiry), steps, m)
  {
    forall m: nat | j <= m < k
      ensures Pays(Works(c, ss, expiry), steps, m)
    {
      RunPays(c, ss, steps, m, k, expiry);
    }
  }

  lemma StopStepGoesOn(c: Config, s: State, st: Step)
    requires Enabled(s, st) && Stopping(s)
    ensures Stopping(Apply(c, s, st)) || Apply(c, s, st).stop.phase.Finished?
  {
  }

  lemma StopGoesOn(c: Config, ss: seq<State>, steps: seq<Step>, k: nat)
    requires IsRun(c, ss, steps) && 0 < k <= |steps| && Stopping(ss[k - 1])
    ensures Stopping(ss[k]) || ss[k].stop.phase.Finished?
  {
    StopStepGoesOn(c, ss[k - 1], steps[k - 1]);
  }

  lemma StopIsBounded(c: Config, ss: seq<State>, steps: seq<Step>, j: nat, k: nat, expiry: bool)
    requires IsRun(c, ss, steps) && (EndsThroughDone(steps) || expiry) && j <= k <= |steps|
    requires Stopping(ss[j]) && StoppingUpTo(ss, j, k) && Free(ss[k])
    ensures Stopping(ss[k]) || ss[k].stop.phase.Finished?
    ensures Busy(steps, j, k) + StopWork(c, ss[k], expiry) <= StopWork(c, ss[j], expiry)
  {
    if k > j {
      StopGoesOn(c, ss, steps, k);
    }
    AllPay(c, ss, steps, j, k, expiry);
    BusyIsPaidFor(Works(c, ss, expiry), steps, j, k);
  }

  /** How many steps Stop can still take at most; `paired`: no Invoke takes its ctx.Done branch. */
  function StopBound(s: State, paired: bool): nat {
    if !paired then 37 + 4 * |s.p.flushes|
    else if s.stop.byShutdown then 13
    else if s.stop.phase.ToProc? then 30
    else 19
  }

  lemma StopWorkBound(c: Config, s: State)
    requires StopOrder(s) && Stopping(s)
    ensures StopWork(c, s, true) <= StopBound(s, false)
  {
    FlushWorkBound(s.p.flushes);
  }

  lemma PairedWorkBound(c: Config, s: State)
    requires Paired(c, s) && Stopping(s)
    ensures StopWork(c, s, false) <= StopBound(s, true)
  {
    FlushWorkBound(s.p.flushes);
  }

  /** Stop returns, in every run and whoever called it: from the producer's shutdown on, whatever the scheduling, only
      StopBound steps other than bystanders' can be taken before Stop has returned, the worker is doomed or the pusher
      is lost, and until then one is always enabled. Where Invokes end through done the pusher is never lost, and the
      bound is 13 steps if the Shutdown event called Stop, 30 if a signal did, 19 once the processor has its stop
      message. */
  lemma StopReturns(c: Config, ss: seq<State>, steps: seq<Step>, j: nat, k: nat)
    requires IsRun(c, ss, steps) && j <= k <= |steps|
    requires Stopping(ss[j]) && StoppingUpTo(ss, j, k) && Free(ss[k])
    ensures Busy(steps, j, k) <= StopBound(ss[j], EndsThroughDone(steps))
    ensures ss[k].stop.phase.Finished? || (Enabled(ss[k], StopStep(ss[k])) && !Bystander(StopStep(ss[k])))
  {
    StopIsBounded(c, ss, steps, j, k, !EndsThroughDone(steps));
    BoundHolds(c, ss, steps, j);
    RunStopsInOrder(c, ss, steps, k);
    RunIsAttached(c, ss, steps, k);
    if Stopping(ss[k]) {
      StopCanMove(c, ss[k]);
    }
  }

  lemma BoundHolds(c: Config, ss: seq<State>, steps: seq<Step>, j: nat)
    requires IsRun(c, ss, steps) && j <= |steps| && Stopping(ss[j])
    ensures StopWork(c, ss[j], !EndsThroughDone(steps)) <= StopBound(ss[j], EndsThroughDone(steps))
  {
    if EndsThroughDone(steps) {
      RunIsPaired(c, ss, steps, j);
      PairedWorkBound(c, ss[j]);
    } else {
      RunStopsInOrder(c, ss, steps, j);
      StopWorkBound(c, ss[j]);
    }
  }

  /** Called by the Shutdown event Stop has the worker itself, which is then never doomed. */
  lemma ShutdownNeverDooms(c: Config, ss: seq<State>, steps: seq<Step>, k: nat)
    requires IsRun(c, ss, steps) && k <= |steps| && ss[k].stop.byShutdown && !ss[k].stop.phase.Finished?
    ensures !Doomed(ss[k])
  {
    RunStopsInOrder(c, ss, steps, k);
  }

  lemma StepAfterStopMessage(c: Config, s: State, st: Step)
    requires Enabled(s, st) && StopOrder(s) && Attached(s) && StopReached(s)
    ensures StopReached(Apply(c, s, st))
    ensures Doomed(Apply(c, s, st)) <==> Doomed(s)
  {
    if Doomed(s) {
      DoomIsPermanent(c, s, st);
    } else {
      DoomedExactlyBy(c, s, st);
    }
  }

  lemma {:induction false} AfterStopMessage(c: Config, ss: seq<State>, steps: seq<Step>, k: nat, m: nat)
    requires IsRun(c, ss, steps) && k < m <= |steps| && steps[k] == Select(StopMessage)
    ensures StopReached(ss[m]) && (Doomed(ss[m]) <==> ss[k].w.ToProcessor?)
    decreases m
  {
    RunStopsInOrder(c, ss, steps, m - 1);
    RunIsAttached(c, ss, steps, m - 1);
    if m == k + 1 {
      DoomBeginsExactlyWhen(c, ss, steps, k);
    } else {
      AfterStopMessage(c, ss, steps, k, m - 1);
      StepAfterStopMessage(c, ss[m - 1], steps[m - 1]);
    }
  }

  /** At the stop message it is decided whether the worker is doomed: Stop never returns if the worker waits for the
      processor then. If not, it has at every later point returned, or has an enabled step, or the pusher is lost -
      which it never is where Invokes end through done. */
  lemma StopMessageDecides(c: Config, ss: seq<State>, steps: seq<Step>, k: nat, m: nat)
    requires IsRun(c, ss, steps) && k < m <= |steps| && steps[k] == Select(StopMessage)
    ensures if ss[k].w.ToProcessor? then Doomed(ss[m]) && !ss[m].stop.phase.Finished?
            else !Doomed(ss[m]) && (ss[m].stop.phase.Finished? || Lost(ss[m]) || Enabled(ss[m], StopStep(ss[m])))
    ensures EndsThroughDone(steps) ==> !Lost(ss[m])
  {
    AfterStopMessage(c, ss, steps, k, m);
    RunStopsInOrder(c, ss, steps, m);
    RunIsAttached(c, ss, steps, m);
    if EndsThroughDone(steps) {
      DoneRunsNeverLose(c, ss, steps, m);
    }
    if Free(ss[m]) && !ss[m].stop.phase.Finished? {
      StopCanMove(c, ss[m]);
    }
  }

  // What Stop leaves behind.

  /** What becomes of a flush from k to m when only its own push can still return. */
  function FlushAfter(c: Config, f: Flush, steps: seq<Step>, k: nat, m: nat, i: nat): Flush
    requires k <= m <= |steps|
    decreases m
  {
    if m == k then f else OneReturn(c, FlushAfter(c, f, steps, k, m - 1, i), steps[m - 1], i)
  }

  function OneReturn(c: Config, f: Flush, st: Step, i: nat): Flush {
    match st
    case Ending(FlushReturn(n, ok)) =>
      if n != i || f.Replying? then f
      else Replying(f.under, if ok then EMPTY else Retained(f.load, c.bufferSize))
    case _ => f
  }

  lemma StepLeavesFlushes(c: Config, s: State, st: Step)
    requires Enabled(s, st) && StopOrder(s) && StopReached(s)
    ensures |Apply(c, s, st).p.flushes| == |s.p.flushes|
    ensures forall i: nat :: i < |s.p.flushes| ==> Apply(c, s, st).p.flushes[i] == OneReturn(c, s.p.flushes[i], st, i)
  {
    if st.Ending? {
      if st.o.PushReturn? {
        PushReturnMoves(s, st.o.ok);
      }
    } else if !st.Select? {
      OthersLeavePusher(c, s, st);
    }
  }

  /** No flush begins or ends after the pusher's stop message, in any run: the flushes Stop leaves behind are those that
      the message found, each as its own push left it. */
  lemma {:induction false} StopLeavesItsFlushes(c: Config, ss: seq<State>, steps: seq<Step>, k: nat, m: nat)
    requires IsRun(c, ss, steps) && k < m <= |steps| && steps[k] == Select(StopMessage)
    ensures |ss[m].p.flushes| == |ss[k].p.flushes|
    ensures forall i: nat :: i < |ss[k].p.flushes| ==>
              ss[m].p.flushes[i] == FlushAfter(c, ss[k].p.flushes[i], steps, k, m, i)
    decreases m
  {
    if m > k + 1 {
      StopLeavesItsFlushes(c, ss, steps, k, m - 1);
      AfterStopMessage(c, ss, steps, k, m - 1);
      RunStopsInOrder(c, ss, steps, m - 1);
      StepLeavesFlushes(c, ss[m - 1], steps[m - 1]);
    }
  }

  /** The push of flush i returned, with that result, at some step from k to m. */
  predicate Returns(steps: seq<Step>, k: nat, m: nat, i: nat, ok: bool)
    requires k <= m <= |steps|
  {
    exists n :: k <= n < m && steps[n] == Ending(FlushReturn(i, ok))
  }

  lemma ReturnsOneMore(steps: seq<Step>, k: nat, m: nat, i: nat, ok: bool)
    requires k < m <= |steps|
    ensures Returns(steps, k, m, i, ok) <==>
            Returns(steps, k, m - 1, i, ok) || steps[m - 1] == Ending(FlushReturn(i, ok))
  {
  }

  /** A flush is as it was, or has come back once: empty after a success, cut after a failure. */
  predicate CameBack(c: Config, f: Flush, steps: seq<Step>, k: nat, m: nat, i: nat)
    requires k <= m <= |steps|
  {
    var g, good, bad := FlushAfter(c, f, steps, k, m, i), Returns(steps, k, m, i, true), Returns(steps, k, m, i, false);
    && !(good && bad)
    && g == if good then Replying(f.under, EMPTY)
            else if bad then Replying(f.under, Retained(f.load, c.bufferSize))
            else f
  }

  lemma CameBackOneMore(c: Config, f: Flush, steps: seq<Step>, k: nat, m: nat, i: nat)
    requires k < m <= |steps| && CameBack(c, f, steps, k, m - 1, i)
    requires forall ok :: steps[m - 1] == Ending(FlushReturn(i, ok)) ==> FlushAfter(c, f, steps, k, m - 1, i).Sending?
    ensures CameBack(c, f, steps, k, m, i)
  {
    ReturnsOneMore(steps, k, m, i, true);
    ReturnsOneMore(steps, k, m, i, false);
  }

  lemma {:induction false} FlushCameBack(c: Config, ss: seq<State>, steps: seq<Step>, k: nat, m: nat, i: nat)
    requires IsRun(c, ss, steps) && k < m <= |steps| && steps[k] == Select(StopMessage) && i < |ss[k].p.flushes|
    ensures CameBack(c, ss[k].p.flushes[i], steps, k, m, i)
    decreases m
  {
    if m > k + 1 {
      FlushCameBack(c, ss, steps, k, m - 1, i);
      StopLeavesItsFlushes(c, ss, steps, k, m - 1);
      assert ss[m - 1].p.flushes[i] == FlushAfter(c, ss[k].p.flushes[i], steps, k, m - 1, i);
    }
    CameBackOneMore(c, ss[k].p.flushes[i], steps, k, m, i);
  }

  /** Stop leaves records behind exactly in a flush that the pusher's stop message found, if its push has not succeeded
      since, nor failed with a cut that left nothing. */
  lemma RecordsLeftExactlyWhen(c: Config, ss: seq<State>, steps: seq<Step>, k: nat, m: nat, i: nat)
    requires IsRun(c, ss, steps) && k < m <= |steps| && steps[k] == Select(StopMessage) && i < |ss[k].p.flushes|
    ensures |ss[m].p.flushes| == |ss[k].p.flushes|
    ensures var load := ss[k].p.flushes[i].load;
            |ss[m].p.flushes[i].load.recs| > 0 <==>
              && !Returns(steps, k, m, i, true)
              && |load.recs| > 0
              && (Returns(steps, k, m, i, false) ==> |Retained(load, c.bufferSize).recs| > 0)
  {
    StopLeavesItsFlushes(c, ss, steps, k, m);
    FlushCameBack(c, ss, steps, k, m, i);
  }

  /** In every run, when Stop has returned every record the processor ever wrote has departed once or is in one of those
      flushes. */
  lemma StopLeavesOnlyFlushes(c: Config, ss: seq<State>, steps: seq<Step>, k: nat, r: Rec)
    requires c.codec.Sound() && IsRun(c, ss, steps) && k <= |steps| && ss[k].stop.phase.Finished?
    ensures ss[k].p.buf == EMPTY && Bodies(ss[k].p.received) == Replay(c.codec, ss[k].inputs).out
    ensures Departures(ss[k].p.departed, r, Delivered) + Departures(ss[k].p.departed, r, LostToOverflow)
            + Departures(ss[k].p.departed, r, LostToFailedPush) + multiset(Flat(ss[k].p.flushes))[r]
            == if r in ss[k].p.received then 1 else 0
  {
    RunStopsInOrder(c, ss, steps, k);
    RunIsSound(c, ss, steps, k);
    RunIsInStep(c, ss, steps, k);
    EachRecordInOnePlace(c, ss, steps, k, r);
    EmptyIffNoRecords(ss[k].p.buf);
  }

  /** Where Invokes end through done that is at most one flush, and none if the Shutdown event called Stop. */
  lemma StopLeavesAtMostOneFlush(c: Config, ss: seq<State>, steps: seq<Step>, k: nat, r: Rec)
    requires c.codec.Sound() && IsRun(c, ss, steps) && EndsThroughDone(steps) && k <= |steps|
    requires ss[k].stop.phase.Finished?
    ensures ss[k].p.buf == EMPTY && Bodies(ss[k].p.received) == Replay(c.codec, ss[k].inputs).out
    ensures |ss[k].p.flushes| <= if ss[k].stop.byShutdown then 0 else 1
    ensures Departures(ss[k].p.departed, r, Delivered) + Departures(ss[k].p.departed, r, LostToOverflow)
            + Departures(ss[k].p.departed, r, LostToFailedPush) + multiset(Flat(ss[k].p.flushes))[r]
            == if r in ss[k].p.received then 1 else 0
  {
    RunIsPaired(c, ss, steps, k);
    StopLeavesOnlyFlushes(c, ss, steps, k, r);
  }

  /** If moreover no context expires early, the records have departed in the order in which the processor wrote them. */
  lemma ShutdownLeavesNothing(c: Config, ss: seq<State>, steps: seq<Step>, k: nat)
    requires c.codec.Sound() && IsRun(c, ss, steps) && NoDeadline(steps) && k <= |steps|
    requires ss[k].stop.phase.Finished? && ss[k].stop.byShutdown
    ensures ss[k].p.buf == EMPTY && |ss[k].p.flushes| == 0
    ensures Recs(ss[k].p.departed) == ss[k].p.received
    ensures Bodies(Recs(ss[k].p.departed)) == Replay(c.codec, ss[k].inputs).out
  {
    RunIsCalm(c, ss, steps, k);
    RunIsSound(c, ss, steps, k);
    RunIsInLine(c, ss, steps, k);
    RunIsInStep(c, ss, steps, k);
    EmptyIffNoRecords(ss[k].p.buf);
    assert Line(ss[k].p) == Recs(ss[k].p.departed);
  }
}
