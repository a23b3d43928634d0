/** The runtime-done signal: when it is given, whom it names, and what the flush it starts carries. */
module Signals {
  import opened Framing
  import opened Telemetry
  import opened Batches
  import opened PusherState
  import opened Pipeline
  import opened Conservation
  import opened Regime

  /** Accepting a batch makes a signal due exactly when its last non-function event is a runtimeDone that carries the
      current, non-empty request id. */
  lemma AcceptDecidesSignal(c: Config, s: State, h: nat)
    requires IntakeEnabled(s, Accept(h))
    ensures SignalDue(ApplyIntake(c, s, Accept(h)).proc.pc) <==>
            exists i: nat ::
              LastPlatform(s.handlers[h].events, i) && RuntimeDoneOf(s.handlers[h].events[i], s.proc.reqId)
  {
    SignalIffLastPlatformEnds(c.codec, s.proc.reqId, s.proc.table, s.handlers[h].events);
  }

  /** A due signal stays due until the pusher takes it, and none becomes due but by accepting a batch. */
  lemma OnlyAcceptAndSignalMatter(c: Config, s: State, st: Step)
    requires Enabled(s, st) && !(st.Http? && st.i.Accept?)
    ensures SignalDue(Apply(c, s, st).proc.pc) <==> SignalDue(s.proc.pc) && st != Select(RuntimeDone)
  {
  }

  lemma RequestChanges(c: Config, s: State, st: Step)
    requires Enabled(s, st)
    ensures var r := Apply(c, s, st).proc.reqId;
            if st == Working(InvokeProcessor) then s.w.ToProcessor? && r == s.w.req
            else if st == Select(RuntimeDone) then r == ""
            else r == s.proc.reqId
  {
  }

  /** j is an accepted invoke of request r, with neither another one nor a signal up to k. */
  predicate InvokedAt(ss: seq<State>, steps: seq<Step>, r: string, j: nat, k: nat)
    requires k <= |steps| < |ss|
  {
    && j < k
    && steps[j] == Working(InvokeProcessor)
    && ss[j].w.ToProcessor? && ss[j].w.req == r
    && forall m :: j < m < k ==> steps[m] != Working(InvokeProcessor) && steps[m] != Select(RuntimeDone)
  }

  lemma {:induction false} CurrentWasInvoked(c: Config, ss: seq<State>, steps: seq<Step>, k: nat)
    requires IsRun(c, ss, steps) && k <= |steps|
    requires ss[k].proc.reqId != ""
    ensures exists j: nat :: InvokedAt(ss, steps, ss[k].proc.reqId, j, k)
  {
    var s, st := ss[k - 1], steps[k - 1];
    RequestChanges(c, s, st);
    if st == Working(InvokeProcessor) {
      assert InvokedAt(ss, steps, ss[k].proc.reqId, k - 1, k);
    } else {
      CurrentWasInvoked(c, ss, steps, k - 1);
      var j: nat :| InvokedAt(ss, steps, s.proc.reqId, j, k - 1);
      assert InvokedAt(ss, steps, ss[k].proc.reqId, j, k);
    }
  }

  /** In every run each signal names the request of the latest accepted invoke, and between two signals the
      processor accepted an invoke. */
  lemma SignalNamesLatestInvoke(c: Config, ss: seq<State>, steps: seq<Step>, k: nat)
    requires IsRun(c, ss, steps) && k < |steps| && steps[k] == Select(RuntimeDone)
    ensures ss[k].proc.reqId != ""
    ensures exists j: nat :: InvokedAt(ss, steps, ss[k].proc.reqId, j, k)
    ensures forall i :: 0 <= i < k && steps[i] == Select(RuntimeDone) ==>
              exists j :: i < j < k && steps[j] == Working(InvokeProcessor)
  {
    RunIsNamed(c, ss, steps, k);
    CurrentWasInvoked(c, ss, steps, k);
    var j: nat :| InvokedAt(ss, steps, ss[k].proc.reqId, j, k);
    forall i | 0 <= i < k && steps[i] == Select(RuntimeDone)
      ensures exists j :: i < j < k && steps[j] == Working(InvokeProcessor)
    {
      assert i < j;
    }
  }

  // The batch that makes a signal due, from its hand-over to the signal.

  /** At j the pusher took the batch whose signal is due since, up to k. */
  predicate HandedOver(ss: seq<State>, steps: seq<Step>, j: nat, k: nat) {
    && j < k <= |steps| < |ss|
    && steps[j] == Select(BytesIn)
    && ss[j].proc.pc.Emitting? && ss[j].proc.pc.runtimeDone
    && forall m :: j < m <= k ==> ss[m].proc.pc.Signalling?
  }

  /** The records of the batch in the processor's hands, as the pusher will number them. */
  function InHand(s: State): seq<Rec> {
    if s.proc.pc.Emitting? then Numbered(s.proc.pc.bodies, |s.p.received|) else []
  }

  /** The step takes the whole buffer away. */
  predicate TakesBuffer(st: Step) {
    st == Select(ContextDone) || st == Select(ForceFlush)
  }

  predicate TakenSince(steps: seq<Step>, j: nat, k: nat)
    requires k <= |steps|
  {
    exists m :: j < m < k && TakesBuffer(steps[m])
  }

  lemma TakenOneMore(steps: seq<Step>, j: nat, k: nat)
    requires j + 1 < k <= |steps|
    ensures TakenSince(steps, j, k) <==> TakenSince(steps, j, k - 1) || TakesBuffer(steps[k - 1])
  {
  }

  lemma {:induction false} SignalWasHandedOver(c: Config, ss: seq<State>, steps: seq<Step>, k: nat)
    requires IsRun(c, ss, steps) && k <= |steps| && ss[k].proc.pc.Signalling?
    ensures exists j: nat :: HandedOver(ss, steps, j, k)
  {
    var s, st := ss[k - 1], steps[k - 1];
    BecomesSignalling(c, s, st);
    if s.proc.pc.Signalling? {
      SignalWasHandedOver(c, ss, steps, k - 1);
      var j: nat :| HandedOver(ss, steps, j, k - 1);
      assert HandedOver(ss, steps, j, k);
    } else {
      assert HandedOver(ss, steps, k - 1, k);
    }
  }

  lemma BecomesSignalling(c: Config, s: State, st: Step)
    requires Enabled(s, st) && Apply(c, s, st).proc.pc.Signalling?
    ensures s.proc.pc.Signalling? || (st == Select(BytesIn) && s.proc.pc.Emitting? && s.proc.pc.runtimeDone)
    ensures Apply(c, s, st).proc.reqId == s.proc.reqId
  {
  }

  predicate EndsWith(recs: seq<Rec>, batch: seq<Rec>) {
    |batch| <= |recs| && recs[|recs| - |batch|..] == batch
  }

  lemma Prepend(front: seq<Rec>, recs: seq<Rec>, batch: seq<Rec>)
    requires EndsWith(recs, batch)
    ensures EndsWith(front + recs, batch)
  {
    assert (front + recs)[|front + recs| - |batch|..] == recs[|recs| - |batch|..];
  }

  lemma SelectKeepsBatch(c: Config, s: State, b: Branch, batch: seq<Rec>)
    requires SelectEnabled(s, b) && StopOrder(s) && EndsWith(s.p.buf.recs, batch) && !c.flushAtNextInvoke
    requires s.proc.pc.Signalling? && b != RuntimeDone && !TakesBuffer(Select(b))
    ensures EndsWith(ApplySelect(c, s, b).p.buf.recs, batch)
  {
    if b.FlushResponse? {
      Prepend(s.p.flushes[b.k].load.recs, s.p.buf.recs, batch);
    }
  }

  lemma StepKeepsBatch(c: Config, s: State, st: Step, batch: seq<Rec>)
    requires Enabled(s, st) && StopOrder(s) && EndsWith(s.p.buf.recs, batch) && !c.flushAtNextInvoke
    requires s.proc.pc.Signalling? && st != Select(RuntimeDone) && !TakesBuffer(st)
    ensures EndsWith(Apply(c, s, st).p.buf.recs, batch)
  {
    match st
    case Select(b) => SelectKeepsBatch(c, s, b, batch);
    case Ending(o) => assert ApplyOutcome(c, s, o).p.buf == s.p.buf;
    case _ => OthersLeavePusher(c, s, st);
  }

  lemma {:induction false} BatchStays(c: Config, ss: seq<State>, steps: seq<Step>, j: nat, k: nat)
    requires IsRun(c, ss, steps) && HandedOver(ss, steps, j, k) && !c.flushAtNextInvoke && !TakenSince(steps, j, k)
    ensures EndsWith(ss[k].p.buf.recs, InHand(ss[j]))
    decreases k
  {
    if k == j + 1 {
      assert ss[k].p.buf.recs == ss[j].p.buf.recs + InHand(ss[j]);
    } else {
      TakenOneMore(steps, j, k);
      BatchStays(c, ss, steps, j, k - 1);
      RunStopsInOrder(c, ss, steps, k - 1);
      StepKeepsBatch(c, ss[k - 1], steps[k - 1], InHand(ss[j]));
    }
  }

  /** The loop itself is pushing r, or r has departed. */
  predicate OutOfHand(p: Pusher, r: Rec) {
    r in JobRecs(p) || r in Recs(p.departed)
  }

  lemma TakenIsOutOfHand(c: Config, s: State, st: Step, r: Rec)
    requires Enabled(s, st) && TakesBuffer(st) && Framed(s.p.buf) && r in s.p.buf.recs
    ensures OutOfHand(Apply(c, s, st).p, r)
  {
    EmptyIffNoRecords(s.p.buf);
  }

  lemma Departed(ds: seq<Departure>, recs: seq<Rec>, fate: Fate, r: Rec)
    requires r in recs || r in Recs(ds)
    ensures r in Recs(ds + Depart(recs, fate))
  {
    assert Recs(ds + Depart(recs, fate)) == Recs(ds) + recs;
  }

  lemma OutcomeKeepsOut(c: Config, s: State, o: Outcome, r: Rec)
    requires OutcomeEnabled(s, o) && OutOfHand(s.p, r)
    ensures OutOfHand(ApplyOutcome(c, s, o).p, r)
  {
    match o
    case PushReturn(ok) =>
      assert ApplyOutcome(c, s, o).p == PushReturns(s.p, ok);
      Departed(s.p.departed, s.p.pc.load.recs, if ok then Delivered else LostToFailedPush, r);
    case FlushReturn(k, ok) =>
      if r in Recs(s.p.departed) {
        var load := s.p.flushes[k].load;
        if ok {
          Departed(s.p.departed, load.recs, Delivered, r);
        } else {
          Departed(s.p.departed, Dropped(load, c.bufferSize).recs, LostToOverflow, r);
        }
      }
    case _ =>
  }

  lemma StepKeepsOut(c: Config, s: State, st: Step, r: Rec)
    requires Enabled(s, st) && OutOfHand(s.p, r)
    ensures OutOfHand(Apply(c, s, st).p, r)
  {
    match st
    case Select(b) => assert ApplySelect(c, s, b).p.departed == s.p.departed;
    case Ending(o) => OutcomeKeepsOut(c, s, o, r);
    case _ => OthersLeavePusher(c, s, st);
  }

  lemma BatchIsTakenNow(c: Config, ss: seq<State>, steps: seq<Step>, j: nat, k: nat, r: Rec)
    requires c.codec.Sound() && IsRun(c, ss, steps) && HandedOver(ss, steps, j, k) && !c.flushAtNextInvoke
    requires !TakenSince(steps, j, k) && k < |steps| && TakesBuffer(steps[k]) && r in InHand(ss[j])
    ensures OutOfHand(ss[k + 1].p, r)
  {
    BatchStays(c, ss, steps, j, k);
    RunIsFramed(c, ss, steps, k);
    TakenIsOutOfHand(c, ss[k], steps[k], r);
  }

  lemma {:induction false} BatchIsTaken(c: Config, ss: seq<State>, steps: seq<Step>, j: nat, k: nat, r: Rec)
    requires c.codec.Sound() && IsRun(c, ss, steps) && HandedOver(ss, steps, j, k) && !c.flushAtNextInvoke
    requires TakenSince(steps, j, k) && r in InHand(ss[j])
    ensures OutOfHand(ss[k].p, r)
    decreases k
  {
    TakenOneMore(steps, j, k);
    if TakenSince(steps, j, k - 1) {
      BatchIsTaken(c, ss, steps, j, k - 1, r);
      StepKeepsOut(c, ss[k - 1], steps[k - 1], r);
    } else {
      BatchIsTakenNow(c, ss, steps, j, k - 1, r);
    }
  }

  lemma OneElsewhere(c: Config, ss: seq<State>, steps: seq<Step>, k: nat, r: Rec)
    requires c.codec.Sound() && IsRun(c, ss, steps) && k <= |steps| && OutOfHand(ss[k].p, r)
    ensures r !in ss[k].p.buf.recs
  {
    EachRecordInOnePlace(c, ss, steps, k, r);
    DeparturesSplit(ss[k].p.departed, r);
  }

  /** In every default-mode run: until its signal is taken, a batch that was handed over is in the buffer exactly if
      neither the context-done nor the force-flush branch was taken since; else the loop has pushed it or is pushing
      it. */
  lemma BatchBufferedExactlyUnlessTaken(c: Config, ss: seq<State>, steps: seq<Step>, j: nat, k: nat, r: Rec)
    requires c.codec.Sound() && IsRun(c, ss, steps) && !c.flushAtNextInvoke
    requires HandedOver(ss, steps, j, k) && r in InHand(ss[j])
    ensures r in ss[k].p.buf.recs <==> !TakenSince(steps, j, k)
    ensures TakenSince(steps, j, k) ==> OutOfHand(ss[k].p, r)
  {
    if TakenSince(steps, j, k) {
      BatchIsTaken(c, ss, steps, j, k, r);
      OneElsewhere(c, ss, steps, k, r);
    } else {
      BatchStays(c, ss, steps, j, k);
    }
  }

  // The END record of a request and the flush its signal starts.

  ghost predicate HasEnd(c: Config, bodies: seq<Bytes>, requestId: string) {
    exists body :: body in bodies && IsEndRecord(c.codec, body, requestId)
  }

  ghost predicate EndReady(c: Config, s: State) {
    && (s.proc.pc.Emitting? && s.proc.pc.runtimeDone ==> HasEnd(c, s.proc.pc.bodies, s.proc.reqId))
    && (forall h :: h in s.handlers && s.handlers[h].Offering? ==> Parseable(c.codec, s.handlers[h].events))
  }

  /** Every event that arrives has a parseable timestamp. */
  predicate AllParseable(c: Config, steps: seq<Step>) {
    forall k :: 0 <= k < |steps| ==> StepParseable(c, steps[k])
  }

  predicate StepParseable(c: Config, st: Step) {
    st.Http? && st.i.Arrive? && st.i.body.Some? ==> Parseable(c.codec, st.i.body.value)
  }

  lemma IntakeKeepsEnd(c: Config, s: State, i: Intake)
    requires IntakeEnabled(s, i) && EndReady(c, s) && StepParseable(c, Http(i))
    ensures EndReady(c, ApplyIntake(c, s, i))
  {
    if i.Accept? {
      var events := s.handlers[i.h].events;
      if Process(c.codec, s.proc.reqId, s.proc.table, events).runtimeDone {
        SignalledBatchHasEnd(c.codec, s.proc.reqId, s.proc.table, events);
      }
    }
  }

  lemma OthersKeepEnd(c: Config, s: State, st: Step)
    requires Enabled(s, st) && EndReady(c, s) && !st.Http?
    ensures EndReady(c, Apply(c, s, st))
  {
    var s' := Apply(c, s, st);
    assert s'.handlers == s.handlers;
    assert s'.proc.pc.Emitting? ==> s'.proc.pc == s.proc.pc && s'.proc.reqId == s.proc.reqId;
  }

  lemma {:induction false} RunHasEnds(c: Config, ss: seq<State>, steps: seq<Step>, k: nat)
    requires IsRun(c, ss, steps) && AllParseable(c, steps) && k <= |steps|
    ensures EndReady(c, ss[k])
  {
    if k > 0 {
      RunHasEnds(c, ss, steps, k - 1);
      assert StepParseable(c, steps[k - 1]);
      if steps[k - 1].Http? {
        IntakeKeepsEnd(c, ss[k - 1], steps[k - 1].i);
      } else {
        OthersKeepEnd(c, ss[k - 1], steps[k - 1]);
      }
    }
  }

  lemma {:induction false} SameRequest(c: Config, ss: seq<State>, steps: seq<Step>, j: nat, k: nat)
    requires IsRun(c, ss, steps) && HandedOver(ss, steps, j, k)
    ensures ss[k].proc.reqId == ss[j].proc.reqId
    decreases k
  {
    BecomesSignalling(c, ss[k - 1], steps[k - 1]);
    if k > j + 1 {
      SameRequest(c, ss, steps, j, k - 1);
    }
  }

  lemma InHandEnd(c: Config, s: State, body: Bytes) returns (r: Rec)
    requires s.proc.pc.Emitting? && body in s.proc.pc.bodies
    ensures r in InHand(s) && r.body == body
  {
    var i :| 0 <= i < |s.proc.pc.bodies| && s.proc.pc.bodies[i] == body;
    r := InHand(s)[i];
  }

  /** r is an END record of request id in the batch handed over at j. */
  ghost predicate EndHandedOver(c: Config, ss: seq<State>, steps: seq<Step>, j: nat, k: nat, r: Rec) {
    HandedOver(ss, steps, j, k) && r in InHand(ss[j]) && IsEndRecord(c.codec, r.body, ss[k].proc.reqId)
  }

  lemma SignalHasEnd(c: Config, ss: seq<State>, steps: seq<Step>, k: nat) returns (j: nat, r: Rec)
    requires IsRun(c, ss, steps) && AllParseable(c, steps) && k <= |steps| && ss[k].proc.pc.Signalling?
    ensures EndHandedOver(c, ss, steps, j, k, r)
  {
    SignalWasHandedOver(c, ss, steps, k);
    j :| HandedOver(ss, steps, j, k);
    SameRequest(c, ss, steps, j, k);
    RunHasEnds(c, ss, steps, j);
    var body :| body in ss[j].proc.pc.bodies && IsEndRecord(c.codec, body, ss[j].proc.reqId);
    r := InHandEnd(c, ss[j], body);
  }

  /** The signal at k starts a flush that holds r. */
  predicate FlushedWith(p: Pusher, p': Pusher, r: Rec) {
    |p'.flushes| == |p.flushes| + 1 && r in p'.flushes[|p.flushes|].load.recs
  }

  lemma SignalTakesBuffer(c: Config, s: State, r: Rec)
    requires SelectEnabled(s, RuntimeDone) && !c.flushAtNextInvoke && Framed(s.p.buf)
    ensures FlushedWith(s.p, ApplySelect(c, s, RuntimeDone).p, r) <==> r in s.p.buf.recs && !IsDone(s.p.ctx, s.dead)
    ensures r in s.p.buf.recs && IsDone(s.p.ctx, s.dead) ==> r in JobRecs(ApplySelect(c, s, RuntimeDone).p)
  {
    EmptyIffNoRecords(s.p.buf);
  }

  /** END before its flush, exactly: in every default-mode run, expired contexts included, with parseable timestamps,
      each signal has its END record handed over before it, and starts a flush with that record iff since then neither
      the context-done nor the force-flush branch was taken, and the context is not done. If such a branch was taken
      the record has departed by then; if only the context is done the loop pushes it now. */
  lemma EndFlushedExactlyWhen(c: Config, ss: seq<State>, steps: seq<Step>, k: nat) returns (j: nat, r: Rec)
    requires c.codec.Sound() && IsRun(c, ss, steps) && AllParseable(c, steps) && !c.flushAtNextInvoke
    requires k < |steps| && steps[k] == Select(RuntimeDone)
    ensures EndHandedOver(c, ss, steps, j, k, r)
    ensures FlushedWith(ss[k].p, ss[k + 1].p, r) <==> !TakenSince(steps, j, k) && !IsDone(ss[k].p.ctx, ss[k].dead)
    ensures TakenSince(steps, j, k) ==> r in Recs(ss[k].p.departed)
    ensures !TakenSince(steps, j, k) && IsDone(ss[k].p.ctx, ss[k].dead) ==> r in JobRecs(ss[k + 1].p)
  {
    j, r := SignalHasEnd(c, ss, steps, k);
    BatchBufferedExactlyUnlessTaken(c, ss, steps, j, k, r);
    RunIsSound(c, ss, steps, k);
    SignalTakesBuffer(c, ss[k], r);
  }

  lemma CalmTakesNothing(c: Config, s: State, st: Step)
    requires Enabled(s, st) && Calm(c, s) && s.proc.pc.Signalling? && !c.flushAtNextInvoke
    ensures !TakesBuffer(st)
  {
  }

  /** Without flush-at-next-invoke, in no-deadline runs with parseable timestamps, each runtime-done signal therefore
      starts exactly one flush, of the whole buffer, under the invocation that waits, and the payload holds the END
      record of the signalled request. */
  lemma EndPrecedesFlush(c: Config, ss: seq<State>, steps: seq<Step>, k: nat)
    requires c.codec.Sound() && IsRun(c, ss, steps) && NoDeadline(steps) && AllParseable(c, steps)
    requires !c.flushAtNextInvoke && k < |steps| && steps[k] == Select(RuntimeDone)
    ensures ss[k].w.Awaiting? && |ss[k].p.flushes| == 0
    ensures ss[k + 1].p.flushes == [Sending(Of(ss[k].w.inv), ss[k].p.buf)] && ss[k + 1].p.buf == EMPTY
    ensures HasEnd(c, Bodies(ss[k].p.buf.recs), ss[k].proc.reqId)
  {
    var j, r := EndFlushedExactlyWhen(c, ss, steps, k);
    forall m | j < m < k
      ensures !TakesBuffer(steps[m])
    {
      RunIsCalm(c, ss, steps, m);
      CalmTakesNothing(c, ss[m], steps[m]);
    }
    RunIsCalm(c, ss, steps, k);
    FlushHolds(c, ss[k], r);
  }

  lemma FlushHolds(c: Config, s: State, r: Rec)
    requires SelectEnabled(s, RuntimeDone) && Calm(c, s) && !c.flushAtNextInvoke
    requires FlushedWith(s.p, ApplySelect(c, s, RuntimeDone).p, r) && IsEndRecord(c.codec, r.body, s.proc.reqId)
    ensures s.w.Awaiting? && |s.p.flushes| == 0
    ensures ApplySelect(c, s, RuntimeDone).p.flushes == [Sending(Of(s.w.inv), s.p.buf)]
    ensures ApplySelect(c, s, RuntimeDone).p.buf == EMPTY
    ensures HasEnd(c, Bodies(s.p.buf.recs), s.proc.reqId)
  {
    var i :| 0 <= i < |s.p.buf.recs| && s.p.buf.recs[i] == r;
    assert Bodies(s.p.buf.recs)[i] == r.body;
  }
}
