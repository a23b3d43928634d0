/** Two regimes. In a run whose Invokes end through done, the handshakes of worker, processor and pusher keep at most
    one flush in flight, for the invocation that waits. If moreover no context expires before its Worker.Invoke has
    returned, the context of a flush in flight is live. */
module Regime {
  import opened Telemetry
  import opened Durations
  import opened Batches
  import opened PusherState
  import opened Pipeline

  // The order in which Stop takes the components down, in every run.

  predicate StopReached(s: State) {
    s.stop.phase.AwaitPush? || s.stop.phase.Finished?
  }

  predicate StopOrder(s: State) {
    var ph := s.stop.phase;
    && (s.proc.pc.EmittingLast? || s.proc.pc.SayingStopped? <==> ph.AwaitProc?)
    && (s.proc.pc.Gone? <==> ph.ToPush? || StopReached(s))
    && (StopTaken(s.p.pc) <==> StopReached(s))
    && (s.p.pc.Exited? <==> ph.Finished?)
    && (s.w.InStop? <==> s.stop.byShutdown && !ph.NotStopping? && !ph.Finished?)
    && (ph.NotStopping? ==> !s.stop.byShutdown)
    && (!ph.NotStopping? && !s.stop.byShutdown ==> !s.feed.Live?)
    && (s.feed.OneFetched? ==> s.w.Waiting? || s.w.Returned?)
    && s.stop.begun == (if ph.NotStopping? then 0 else 1)
    && (s.serverUp <==> ph.NotStopping? || ph.ProducerDown?)
    && (!s.serverUp ==> forall h :: h in s.handlers ==> !s.handlers[h].Offering?)
    && (StopTaken(s.p.pc) ==> |s.p.buf.bytes| == 0)
  }

  lemma SelectKeepsStopOrder(c: Config, s: State, b: Branch)
    requires SelectEnabled(s, b) && StopOrder(s)
    ensures StopOrder(ApplySelect(c, s, b))
  {
  }

  lemma OutcomeKeepsStopOrder(c: Config, s: State, o: Outcome)
    requires OutcomeEnabled(s, o) && StopOrder(s)
    ensures StopOrder(ApplyOutcome(c, s, o))
  {
  }

  lemma HaltKeepsStopOrder(s: State, h: Halt)
    requires HaltEnabled(s, h) && StopOrder(s)
    ensures StopOrder(ApplyHalt(s, h))
  {
  }

  lemma WorkKeepsStopOrder(s: State, k: Work)
    requires WorkEnabled(s, k) && StopOrder(s)
    ensures StopOrder(ApplyWork(s, k))
  {
  }

  lemma StepKeepsStopOrder(c: Config, s: State, st: Step)
    requires Enabled(s, st) && StopOrder(s)
    ensures StopOrder(Apply(c, s, st))
  {
    match st
    case Select(b) => SelectKeepsStopOrder(c, s, b);
    case Ending(o) => OutcomeKeepsStopOrder(c, s, o);
    case Working(k) => WorkKeepsStopOrder(s, k);
    case Halting(h) => HaltKeepsStopOrder(s, h);
    case Http(_) =>
  }

  lemma {:induction false} RunStopsInOrder(c: Config, ss: seq<State>, steps: seq<Step>, k: nat)
    requires IsRun(c, ss, steps) && k <= |steps|
    ensures StopOrder(ss[k])
  {
    if k > 0 {
      RunStopsInOrder(c, ss, steps, k - 1);
      StepKeepsStopOrder(c, ss[k - 1], steps[k - 1]);
    }
  }

  /** The processor has decided to signal and has not yet done so. */
  predicate SignalDue(pc: ProcPc) {
    pc.Signalling? || (pc.Emitting? && pc.runtimeDone)
  }

  /** A signal that is due has a request to end. */
  predicate Named(s: State) {
    SignalDue(s.proc.pc) ==> s.proc.reqId != ""
  }

  /** No batch is signalled while there is no current request. */
  lemma {:induction false} SignalNeedsRequest(codec: Codec, current: string, table: Table, events: seq<Event>)
    ensures Process(codec, current, table, events).runtimeDone ==> current != ""
  {
    if |events| > 0 {
      SignalNeedsRequest(codec, current, table, events[..|events| - 1]);
    }
  }

  lemma StepKeepsNamed(c: Config, s: State, st: Step)
    requires Enabled(s, st) && Named(s)
    ensures Named(Apply(c, s, st))
  {
    if st.Http? && st.i.Accept? {
      SignalNeedsRequest(c.codec, s.proc.reqId, s.proc.table, s.handlers[st.i.h].events);
    }
  }

  lemma {:induction false} RunIsNamed(c: Config, ss: seq<State>, steps: seq<Step>, k: nat)
    requires IsRun(c, ss, steps) && k <= |steps|
    ensures Named(ss[k])
  {
    if k > 0 {
      RunIsNamed(c, ss, steps, k - 1);
      StepKeepsNamed(c, ss[k - 1], steps[k - 1]);
    }
  }

  // The handshake invariant of runs whose Invokes end through done.

  /** The pusher has taken the current invocation and its worker has not returned. */
  predicate Invoked(w: Worker) {
    w.ToProcessor? || w.Awaiting?
  }

  /** The done channel is the waiting invocation's, and so is a flush: it began under that invocation's context, or
      under the background context that replaced it. */
  predicate Handshake(c: Config, s: State) {
    && (s.p.doneC.Some? <==> Invoked(s.w))
    && (Invoked(s.w) ==> s.p.doneC == Some(s.w.inv) && (s.p.ctx == Of(s.w.inv) || s.p.ctx == Background))
    && (|s.p.flushes| == 1 ==>
          && Invoked(s.w) && !s.p.pc.SendingDone?
          && (s.p.flushes[0].under == Of(s.w.inv) || s.p.flushes[0].under == Background))
    && (!c.flushAtNextInvoke ==>
          && (s.proc.reqId != "" ==> s.w.Awaiting? && |s.p.flushes| == 0 && !s.p.pc.SendingDone?)
          && (s.w.ToProcessor? ==> |s.p.flushes| == 0 && !s.p.pc.SendingDone?))
  }

  predicate Paired(c: Config, s: State) {
    && StopOrder(s) && Named(s)
    && !s.w.OfferingForce? && !s.w.AwaitingForce? && s.force.queue.None?
    && (forall i :: i in s.dead ==> i < s.nextInv)
    && (Current(s.w).Some? ==> Current(s.w).value + 1 == s.nextInv)
    && |s.p.flushes| <= 1
    && (s.p.pc.SendingDone? ==> s.p.doneC.Some?)
    && (!StopTaken(s.p.pc) ==> Handshake(c, s))
    && (StopTaken(s.p.pc) && (s.p.pc.Pushing? || s.p.pc.SendingDone?) && s.p.doneC.Some? ==>
          Invoked(s.w) && s.p.doneC == Some(s.w.inv))
    && (StopTaken(s.p.pc) && s.stop.byShutdown ==> s.p.doneC.None? && |s.p.flushes| == 0)
  }

  lemma IntakeKeepsPaired(c: Config, s: State, i: Intake)
    requires IntakeEnabled(s, i) && Paired(c, s)
    ensures Paired(c, ApplyIntake(c, s, i))
  {
    StepKeepsStopOrder(c, s, Http(i));
    StepKeepsNamed(c, s, Http(i));
  }

  lemma SelectKeepsPaired(c: Config, s: State, b: Branch)
    requires SelectEnabled(s, b) && Paired(c, s)
    ensures Paired(c, ApplySelect(c, s, b))
  {
    SelectKeepsStopOrder(c, s, b);
  }

  /** What a push by the loop leaves alone when it returns. */
  lemma PushReturnMoves(s: State, ok: bool)
    requires OutcomeEnabled(s, PushReturn(ok))
    ensures var p, p' := s.p, FinishPush(s, ok).p;
            && p'.flushes == p.flushes && p'.doneC == p.doneC
            && p'.ctx == (if p.pc.job.ForContextDone? then Background else p.ctx)
            && p'.pc == if !p.pc.job.ForStop? then Selecting
                        else if p.doneC.Some? then SendingDone(true) else SendingStopped
    ensures FinishPush(s, ok) == s.(p := FinishPush(s, ok).p, force := FinishPush(s, ok).force)
    ensures FinishPush(s, ok).force.queue == s.force.queue
  {
    assert FinishPush(s, ok).p == PushReturns(s.p, ok);
  }

  lemma PushReturnKeepsPaired(c: Config, s: State, ok: bool)
    requires OutcomeEnabled(s, PushReturn(ok)) && Paired(c, s)
    ensures Paired(c, FinishPush(s, ok))
  {
    OutcomeKeepsStopOrder(c, s, PushReturn(ok));
    PushReturnMoves(s, ok);
    var s' := FinishPush(s, ok);
    if s.p.pc.job.ForStop? {
      assert StopTaken(s'.p.pc);
    } else {
      assert Handshake(c, s');
    }
  }

  lemma TakenKeepsPaired(c: Config, s: State, o: Outcome)
    requires OutcomeEnabled(s, o) && Paired(c, s) && (o.DoneTaken? || o.StoppedTaken?)
    ensures Paired(c, ApplyOutcome(c, s, o))
  {
    OutcomeKeepsStopOrder(c, s, o);
  }

  lemma OutcomeKeepsPaired(c: Config, s: State, o: Outcome)
    requires OutcomeEnabled(s, o) && Paired(c, s)
    ensures Paired(c, ApplyOutcome(c, s, o))
  {
    match o
    case PushReturn(ok) => PushReturnKeepsPaired(c, s, ok);
    case FlushReturn(_, _) => OutcomeKeepsStopOrder(c, s, o);
    case _ => TakenKeepsPaired(c, s, o);
  }

  lemma WorkKeepsPaired(c: Config, s: State, k: Work)
    requires WorkEnabled(s, k) && Paired(c, s) && k != SeeDeadline
    ensures Paired(c, ApplyWork(s, k))
  {
    StepKeepsStopOrder(c, s, Working(k));
  }

  lemma HaltKeepsPaired(c: Config, s: State, h: Halt)
    requires HaltEnabled(s, h) && Paired(c, s)
    ensures Paired(c, ApplyHalt(s, h))
  {
    StepKeepsStopOrder(c, s, Halting(h));
  }

  lemma StepKeepsPaired(c: Config, s: State, st: Step)
    requires Enabled(s, st) && Paired(c, s) && st != Working(SeeDeadline)
    ensures Paired(c, Apply(c, s, st))
  {
    match st
    case Http(i) => IntakeKeepsPaired(c, s, i);
    case Select(b) => SelectKeepsPaired(c, s, b);
    case Ending(o) => OutcomeKeepsPaired(c, s, o);
    case Working(k) => WorkKeepsPaired(c, s, k);
    case Halting(h) => HaltKeepsPaired(c, s, h);
  }

  lemma {:induction false} RunIsPaired(c: Config, ss: seq<State>, steps: seq<Step>, k: nat)
    requires IsRun(c, ss, steps) && EndsThroughDone(steps) && k <= |steps|
    ensures Paired(c, ss[k])
  {
    if k > 0 {
      RunIsPaired(c, ss, steps, k - 1);
      StepKeepsPaired(c, ss[k - 1], steps[k - 1]);
    }
  }

  // The context in runs without an early deadline.

  /** Before the stop message the pusher's context is the waiting invocation's, and the loop pushes only while none
      waits. */
  predicate UnderLiveContext(s: State) {
    && (Invoked(s.w) ==> s.p.ctx == Of(s.w.inv) && !s.p.pc.Pushing?)
    && (|s.p.flushes| == 1 ==> s.p.pc.Selecting? && s.p.flushes[0].under == s.p.ctx)
  }

  predicate Calm(c: Config, s: State) {
    && Paired(c, s)
    && (Current(s.w).Some? ==> Current(s.w).value !in s.dead)
    && (!StopTaken(s.p.pc) ==> UnderLiveContext(s))
  }

  lemma SelectKeepsCalm(c: Config, s: State, b: Branch)
    requires SelectEnabled(s, b) && Calm(c, s)
    ensures Calm(c, ApplySelect(c, s, b))
  {
    SelectKeepsPaired(c, s, b);
  }

  lemma OutcomeKeepsCalm(c: Config, s: State, o: Outcome)
    requires OutcomeEnabled(s, o) && Calm(c, s)
    ensures Calm(c, ApplyOutcome(c, s, o))
  {
    OutcomeKeepsPaired(c, s, o);
  }

  lemma WorkKeepsCalm(c: Config, s: State, k: Work)
    requires WorkEnabled(s, k) && Calm(c, s) && k != Deadline
    ensures k != SeeDeadline && Calm(c, ApplyWork(s, k))
  {
    WorkKeepsPaired(c, s, k);
  }

  lemma StepKeepsCalm(c: Config, s: State, st: Step)
    requires Enabled(s, st) && Calm(c, s) && st != Working(Deadline)
    ensures Calm(c, Apply(c, s, st)) && st != Working(SeeDeadline)
  {
    match st
    case Http(i) => IntakeKeepsPaired(c, s, i);
    case Select(b) => SelectKeepsCalm(c, s, b);
    case Ending(o) => OutcomeKeepsCalm(c, s, o);
    case Working(k) => WorkKeepsCalm(c, s, k);
    case Halting(h) => HaltKeepsPaired(c, s, h);
  }

  lemma {:induction false} RunIsCalm(c: Config, ss: seq<State>, steps: seq<Step>, k: nat)
    requires IsRun(c, ss, steps) && NoDeadline(steps) && k <= |steps|
    ensures Calm(c, ss[k])
  {
    if k > 0 {
      RunIsCalm(c, ss, steps, k - 1);
      StepKeepsCalm(c, ss[k - 1], steps[k - 1]);
    }
  }

  /** A no-deadline run is one whose Invokes end through done. */
  lemma NoDeadlineEndsThroughDone(c: Config, ss: seq<State>, steps: seq<Step>)
    requires IsRun(c, ss, steps) && NoDeadline(steps)
    ensures EndsThroughDone(steps)
  {
    forall k | 0 <= k < |steps|
      ensures steps[k] != Working(SeeDeadline)
    {
      RunIsCalm(c, ss, steps, k);
      StepKeepsCalm(c, ss[k], steps[k]);
    }
  }
}
