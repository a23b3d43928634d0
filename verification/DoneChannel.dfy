/** The pusher's done and its reader: when a pusher offers done that nobody will take, exactly from which step on, in
    every run. */
module DoneChannel {
  import opened Telemetry
  import opened PusherState
  import opened Pipeline
  import opened Regime
  import opened Queue

  /** Done channels belong to invocations that have begun, and exactly a worker past the pusher has its own there. */
  predicate Attached(s: State) {
    && WorkerNumbered(s)
    && (s.p.doneC.Some? ==> s.p.doneC.value < s.nextInv)
    && (s.p.pc.SendingDone? ==> s.p.doneC.Some?)
    && (s.w.ToPusher? ==> s.p.doneC != Some(s.w.inv))
    && (s.w.ToProcessor? ==> s.p.doneC == Some(s.w.inv) && !s.p.pc.SendingStopped? && !s.p.pc.Exited?)
  }

  lemma OutcomeKeepsAttached(c: Config, s: State, o: Outcome)
    requires OutcomeEnabled(s, o) && Attached(s)
    ensures Attached(ApplyOutcome(c, s, o))
  {
    if o.PushReturn? {
      PushReturnMoves(s, o.ok);
    }
  }

  lemma SelectKeepsAttached(c: Config, s: State, b: Branch)
    requires SelectEnabled(s, b) && Attached(s)
    ensures Attached(ApplySelect(c, s, b))
  {
  }

  lemma StepKeepsAttached(c: Config, s: State, st: Step)
    requires Enabled(s, st) && Attached(s)
    ensures Attached(Apply(c, s, st))
  {
    match st
    case Select(b) => SelectKeepsAttached(c, s, b);
    case Ending(o) => OutcomeKeepsAttached(c, s, o);
    case _ =>
  }

  lemma {:induction false} RunIsAttached(c: Config, ss: seq<State>, steps: seq<Step>, k: nat)
    requires IsRun(c, ss, steps) && k <= |steps|
    ensures Attached(ss[k])
  {
    if k > 0 {
      RunIsAttached(c, ss, steps, k - 1);
      StepKeepsAttached(c, ss[k - 1], steps[k - 1]);
    }
  }

  /** The step turns the pusher to its done channel: at an invoke that finds nothing to flush in flush-at-next-invoke
      mode, and at a flush response or the end of a stop where a done channel is set. */
  predicate OffersDone(c: Config, s: State, st: Step) {
    match st
    case Select(Invoke) => c.flushAtNextInvoke && |s.p.buf.bytes| == 0
    case Select(FlushResponse(_)) => s.p.doneC.Some?
    case Select(StopMessage) => |s.p.buf.bytes| == 0 && s.p.doneC.Some?
    case Ending(PushReturn(_)) => s.p.pc.Pushing? && s.p.pc.job.ForStop? && s.p.doneC.Some?
    case _ => false
  }

  /** Done is offered exactly from those steps on, to the channel of the latest invoke; a stop goes on to its own
      answer. */
  lemma DoneOfferedExactlyWhen(c: Config, s: State, st: Step)
    requires Enabled(s, st)
    ensures Apply(c, s, st).p.pc.SendingDone? <==>
            OffersDone(c, s, st) || (s.p.pc.SendingDone? && st != Ending(DoneTaken))
    ensures OffersDone(c, s, st) ==>
              (Apply(c, s, st).p.pc.thenStop <==> st == Select(StopMessage) || (st.Ending? && st.o.PushReturn?))
    ensures Apply(c, s, st).p.doneC ==
            if st == Select(Invoke) then Some(s.w.inv)
            else if st == Ending(DoneTaken) && !s.p.pc.thenStop then None
            else s.p.doneC
  {
    if st.Ending? && st.o.PushReturn? {
      PushReturnMoves(s, st.o.ok);
    }
  }

  /** A worker that reads, or will read, the done channel the pusher has: it is still before the branches of the
      select in Worker.Invoke. Once it has taken the ctx.Done branch it never reads done again. */
  predicate HasReader(s: State) {
    (s.w.ToProcessor? || s.w.Awaiting?) && s.p.doneC == Some(s.w.inv)
  }

  predicate Unread(s: State) {
    s.p.doneC.Some? && !HasReader(s)
  }

  /** The pusher offers done and has no reader. */
  predicate Lost(s: State) {
    s.p.pc.SendingDone? && Unread(s)
  }

  /** No step lets a lost pusher go on. */
  lemma LossIsPermanent(c: Config, s: State, st: Step)
    requires Attached(s) && Lost(s) && Enabled(s, st)
    ensures Lost(Apply(c, s, st)) && Apply(c, s, st).p.pc == s.p.pc && Apply(c, s, st).p.doneC == s.p.doneC
  {
  }

  /** The pusher turns to a done channel without a reader, or the reader leaves while done is offered to it. */
  predicate Loses(s: State, st: Step) {
    match st
    case Select(FlushResponse(_)) => Unread(s)
    case Select(StopMessage) => |s.p.buf.bytes| == 0 && Unread(s)
    case Ending(PushReturn(_)) => s.p.pc.Pushing? && s.p.pc.job.ForStop? && Unread(s)
    case Working(SeeDeadline) => s.p.pc.SendingDone? && HasReader(s)
    case _ => false
  }

  lemma OutcomeLoses(c: Config, s: State, o: Outcome)
    requires OutcomeEnabled(s, o) && Attached(s) && !Lost(s)
    ensures Lost(ApplyOutcome(c, s, o)) <==> Loses(s, Ending(o))
  {
    if o.PushReturn? {
      PushReturnMoves(s, o.ok);
    }
  }

  lemma SelectLoses(c: Config, s: State, b: Branch)
    requires SelectEnabled(s, b) && Attached(s)
    ensures Lost(ApplySelect(c, s, b)) <==> Loses(s, Select(b))
  {
  }

  lemma LostExactlyBy(c: Config, s: State, st: Step)
    requires Enabled(s, st) && Attached(s) && !Lost(s)
    ensures Lost(Apply(c, s, st)) <==> Loses(s, st)
  {
    match st
    case Select(b) => SelectLoses(c, s, b);
    case Ending(o) => OutcomeLoses(c, s, o);
    case _ =>
  }

  /** In every run whatsoever, the pusher is lost exactly from such a step on. */
  lemma LossBeginsExactlyWhen(c: Config, ss: seq<State>, steps: seq<Step>, k: nat)
    requires IsRun(c, ss, steps) && k < |steps|
    ensures Lost(ss[k + 1]) <==> Lost(ss[k]) || Loses(ss[k], steps[k])
  {
    RunIsAttached(c, ss, steps, k);
    if Lost(ss[k]) {
      LossIsPermanent(c, ss[k], steps[k]);
    } else {
      LostExactlyBy(c, ss[k], steps[k]);
    }
  }

  /** Where every Invoke ends through its done channel no pusher is ever lost. */
  lemma DoneRunsNeverLose(c: Config, ss: seq<State>, steps: seq<Step>, k: nat)
    requires IsRun(c, ss, steps) && EndsThroughDone(steps) && k <= |steps|
    ensures !Lost(ss[k])
  {
    RunIsPaired(c, ss, steps, k);
  }
}
