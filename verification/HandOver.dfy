/** From the HTTP handlers to the pusher: what is answered was accepted, and what was accepted arrives in order. */
module HandOver {
  import opened Framing
  import opened Telemetry
  import opened Durations
  import opened Batches
  import opened PusherState
  import opened Pipeline
  import opened Conservation
  import opened Regime

  /** The records in the processor's hands. */
  function Pending(pc: ProcPc): seq<Bytes> {
    if pc.Emitting? then pc.bodies else []
  }

  /** The processor's state is the replay of its inputs, and so is what it handed over, but for the last batch
      while that is still in its hands. */
  predicate InStep(c: Config, s: State) {
    var r, n := Replay(c.codec, s.inputs), |s.inputs|;
    && s.proc.table == r.table
    && Bodies(s.p.received) + Pending(s.proc.pc) == r.out
    && r.reqId == (match s.proc.pc
                   case Emitting(_, _, runtimeDone) => if runtimeDone then "" else s.proc.reqId
                   case Signalling => ""
                   case _ => s.proc.reqId)
    && (s.proc.pc.Emitting? ==>
          n > 0 && s.inputs[n - 1].TookBatch? && Bodies(s.p.received) == Replay(c.codec, s.inputs[..n - 1]).out)
  }

  /** Which handlers' batches are among the inputs. */
  predicate Acknowledged(s: State) {
    && (forall h :: h in s.handlers && (s.handlers[h].Taken? || s.handlers[h].Answered?) ==>
          TookBatch(h, s.handlers[h].events) in s.inputs)
    && (forall i :: 0 <= i < |s.inputs| && s.inputs[i].TookBatch? ==>
          s.inputs[i].h in s.handlers && (s.handlers[s.inputs[i].h].Taken? || s.handlers[s.inputs[i].h].Answered?))
    && (forall i, j :: 0 <= i < j < |s.inputs| && s.inputs[i].TookBatch? && s.inputs[j].TookBatch? ==>
          s.inputs[i].h != s.inputs[j].h)
  }

  lemma ReplaySnoc(codec: Codec, inputs: seq<Input>, x: Input)
    ensures (inputs + [x])[..|inputs + [x]| - 1] == inputs
  {
  }

  lemma ReceivedBodies(p: Pusher, bytes: Bytes, bodies: seq<Bytes>)
    ensures Bodies(Receive(p, bytes, bodies).received) == Bodies(p.received) + bodies
  {
  }

  lemma SelectKeepsInStep(c: Config, s: State, b: Branch)
    requires SelectEnabled(s, b) && InStep(c, s)
    ensures InStep(c, ApplySelect(c, s, b))
  {
    if b.BytesIn? {
      ReceivedBodies(s.p, s.proc.pc.bytes, if s.proc.pc.Emitting? then s.proc.pc.bodies else []);
    }
  }

  lemma AcceptKeepsInStep(c: Config, s: State, h: nat)
    requires IntakeEnabled(s, Accept(h)) && InStep(c, s)
    ensures InStep(c, AcceptBatch(c, s, h))
  {
    ReplaySnoc(c.codec, s.inputs, TookBatch(h, s.handlers[h].events));
  }

  lemma InvokeKeepsInStep(c: Config, s: State)
    requires WorkEnabled(s, InvokeProcessor) && InStep(c, s)
    ensures InStep(c, ApplyWork(s, InvokeProcessor))
  {
    ReplaySnoc(c.codec, s.inputs, TookInvoke(s.w.req));
  }

  /** Steps that neither feed the processor nor take from it. */
  predicate Elsewhere(st: Step) {
    && !(st.Http? && st.i.Accept?)
    && !st.Select?
    && st != Working(InvokeProcessor)
  }

  /** Nothing the processor's books speak of has changed. */
  predicate SameBooks(s: State, s': State) {
    && s'.inputs == s.inputs && s'.proc.reqId == s.proc.reqId && s'.proc.table == s.proc.table
    && s'.p.received == s.p.received
    && (|| s'.proc.pc == s.proc.pc
        || (&& !s.proc.pc.Emitting? && !s.proc.pc.Signalling?
            && !s'.proc.pc.Emitting? && !s'.proc.pc.Signalling?))
  }

  lemma OutcomeLeavesProcessor(c: Config, s: State, o: Outcome)
    requires OutcomeEnabled(s, o)
    ensures SameBooks(s, ApplyOutcome(c, s, o))
  {
  }

  lemma ElsewhereLeavesProcessor(c: Config, s: State, st: Step)
    requires Enabled(s, st) && Elsewhere(st)
    ensures SameBooks(s, Apply(c, s, st))
  {
    match st
    case Ending(o) => OutcomeLeavesProcessor(c, s, o);
    case _ => OthersLeavePusher(c, s, st);
  }

  lemma StepKeepsInStep(c: Config, s: State, st: Step)
    requires Enabled(s, st) && InStep(c, s)
    ensures InStep(c, Apply(c, s, st))
  {
    if Elsewhere(st) {
      ElsewhereLeavesProcessor(c, s, st);
    } else {
      match st
      case Http(i) => AcceptKeepsInStep(c, s, i.h);
      case Select(b) => SelectKeepsInStep(c, s, b);
      case Working(k) => InvokeKeepsInStep(c, s);
    }
  }

  lemma AcceptKeepsAcknowledged(c: Config, s: State, h: nat)
    requires IntakeEnabled(s, Accept(h)) && Acknowledged(s)
    ensures Acknowledged(AcceptBatch(c, s, h))
  {
    var s', x := AcceptBatch(c, s, h), TookBatch(h, s.handlers[h].events);
    assert s'.inputs == s.inputs + [x] && x in s'.inputs;
    assert forall y :: y in s.inputs ==> y in s'.inputs;
  }

  lemma IntakeKeepsAcknowledged(c: Config, s: State, i: Intake)
    requires IntakeEnabled(s, i) && Acknowledged(s)
    ensures Acknowledged(ApplyIntake(c, s, i))
  {
    if i.Accept? {
      AcceptKeepsAcknowledged(c, s, i.h);
    }
  }

  lemma InvokeKeepsAcknowledged(s: State)
    requires WorkEnabled(s, InvokeProcessor) && Acknowledged(s)
    ensures Acknowledged(ApplyWork(s, InvokeProcessor))
  {
    var s' := ApplyWork(s, InvokeProcessor);
    assert s'.inputs == s.inputs + [TookInvoke(s.w.req)];
    assert forall y :: y in s.inputs ==> y in s'.inputs;
  }

  lemma OthersLeaveInputs(c: Config, s: State, st: Step)
    requires Enabled(s, st) && !st.Http? && st != Working(InvokeProcessor)
    ensures Apply(c, s, st).inputs == s.inputs && Apply(c, s, st).handlers == s.handlers
  {
  }

  lemma StepKeepsAcknowledged(c: Config, s: State, st: Step)
    requires Enabled(s, st) && Acknowledged(s)
    ensures Acknowledged(Apply(c, s, st))
  {
    if st.Http? {
      IntakeKeepsAcknowledged(c, s, st.i);
    } else if st == Working(InvokeProcessor) {
      InvokeKeepsAcknowledged(s);
    } else {
      OthersLeaveInputs(c, s, st);
    }
  }

  lemma {:induction false} RunIsInStep(c: Config, ss: seq<State>, steps: seq<Step>, k: nat)
    requires IsRun(c, ss, steps) && k <= |steps|
    ensures InStep(c, ss[k]) && Acknowledged(ss[k])
  {
    if k > 0 {
      RunIsInStep(c, ss, steps, k - 1);
      StepKeepsInStep(c, ss[k - 1], steps[k - 1]);
      StepKeepsAcknowledged(c, ss[k - 1], steps[k - 1]);
    }
  }

  /** What the batches accepted so far come to: each one's records in event order, in acceptance order, against the
      table that all events before it leave. */
  function Written(codec: Codec, inputs: seq<Input>): seq<Bytes> {
    if |inputs| == 0 then []
    else
      var before := inputs[..|inputs| - 1];
      match inputs[|inputs| - 1]
      case TookInvoke(_) => Written(codec, before)
      case TookBatch(_, events) =>
        Written(codec, before)
        + RecordsOf(codec, Replay(codec, before).reqId, TableAfter(codec, map[], AllEvents(before)), events)
  }

  lemma {:induction false} ReplayIsWritten(codec: Codec, inputs: seq<Input>)
    ensures Replay(codec, inputs).out == Written(codec, inputs)
  {
    if |inputs| > 0 {
      var before := inputs[..|inputs| - 1];
      ReplayIsWritten(codec, before);
      ReplayTable(codec, before);
      match inputs[|inputs| - 1]
      case TookInvoke(_) =>
      case TookBatch(_, events) =>
        BatchInEventOrder(codec, Replay(codec, before).reqId, Replay(codec, before).table, events);
    }
  }

  /** Ordered hand-over: in every run, what the pusher received is the concatenated encoding of the accepted batches
      in acceptance order, each encoded in the request-id and duration state of its turn - except for at most the
      last one, which is then still in the processor's hands. */
  lemma OrderedHandOver(c: Config, ss: seq<State>, steps: seq<Step>, k: nat)
    requires c.codec.Sound() && IsRun(c, ss, steps) && k <= |steps|
    ensures var s, n := ss[k], |ss[k].inputs|;
            if s.proc.pc.Emitting? then
              && n > 0 && s.inputs[n - 1].TookBatch?
              && Bodies(s.p.received) == Replay(c.codec, s.inputs[..n - 1]).out
              && Frame(Bodies(s.p.received)) + s.proc.pc.bytes == Frame(Replay(c.codec, s.inputs).out)
            else
              Bodies(s.p.received) == Replay(c.codec, s.inputs).out
    ensures var n := |ss[k].inputs| - if ss[k].proc.pc.Emitting? then 1 else 0;
            n >= 0 && Bodies(ss[k].p.received) == Written(c.codec, ss[k].inputs[..n])
    ensures ss[k].proc.table == TableAfter(c.codec, map[], AllEvents(ss[k].inputs))
  {
    RunIsInStep(c, ss, steps, k);
    assert ss[k].inputs[..|ss[k].inputs|] == ss[k].inputs;
    ReplayIsWritten(c.codec, ss[k].inputs[..|ss[k].inputs| - if ss[k].proc.pc.Emitting? then 1 else 0]);
    RunIsSound(c, ss, steps, k);
    ReplayTable(c.codec, ss[k].inputs);
    FrameConcat(Bodies(ss[k].p.received), Pending(ss[k].proc.pc));
  }

  /** Request h arrived with this body, decoded or not, at some step before k. */
  predicate CameAs(steps: seq<Step>, k: nat, h: nat, body: Option<seq<Event>>)
    requires k <= |steps|
  {
    exists j :: 0 <= j < k && steps[j] == Http(Arrive(h, body))
  }

  /** Handler h holds what came with its request: all its events, or nothing if they did not decode. */
  predicate AsArrived(steps: seq<Step>, k: nat, h: nat, handler: Handler)
    requires k <= |steps|
  {
    CameAs(steps, k, h, if handler.Rejected? then None else Some(handler.events))
  }

  lemma CameEarlier(steps: seq<Step>, k: nat, h: nat, body: Option<seq<Event>>)
    requires 0 < k <= |steps| && (CameAs(steps, k - 1, h, body) || steps[k - 1] == Http(Arrive(h, body)))
    ensures CameAs(steps, k, h, body)
  {
  }

  lemma HandlerMoves(c: Config, s: State, st: Step, h: nat)
    requires Enabled(s, st) && h in Apply(c, s, st).handlers
    ensures var handler := Apply(c, s, st).handlers[h];
            || (h in s.handlers && handler.Rejected? == s.handlers[h].Rejected?
                && (!handler.Rejected? ==> handler.events == s.handlers[h].events))
            || (h !in s.handlers && st == Http(Arrive(h, if handler.Rejected? then None else Some(handler.events))))
  {
  }

  /** In every run each handler holds exactly what arrived with its request. */
  lemma {:induction false} HandlersHoldArrivals(c: Config, ss: seq<State>, steps: seq<Step>, k: nat, h: nat)
    requires IsRun(c, ss, steps) && k <= |steps| && h in ss[k].handlers
    ensures AsArrived(steps, k, h, ss[k].handlers[h])
  {
    var handler := ss[k].handlers[h];
    HandlerMoves(c, ss[k - 1], steps[k - 1], h);
    if h in ss[k - 1].handlers {
      HandlersHoldArrivals(c, ss, steps, k - 1, h);
    }
    CameEarlier(steps, k, h, if handler.Rejected? then None else Some(handler.events));
  }

  lemma HandlerStays(c: Config, s: State, st: Step, h: nat)
    requires Enabled(s, st) && h in s.handlers
    ensures h in Apply(c, s, st).handlers
  {
  }

  /** And a request is given to a handler once only, which keeps it. */
  lemma {:induction false} ArrivalIsKept(c: Config, ss: seq<State>, steps: seq<Step>, j: nat, k: nat, h: nat)
    requires IsRun(c, ss, steps) && j < k <= |steps| && steps[j].Http? && steps[j].i.Arrive? && steps[j].i.h == h
    ensures h in ss[k].handlers
    ensures match steps[j].i.body
            case None => ss[k].handlers[h].Rejected?
            case Some(events) => !ss[k].handlers[h].Rejected? && ss[k].handlers[h].events == events
    decreases k
  {
    if k > j + 1 {
      ArrivalIsKept(c, ss, steps, j, k - 1, h);
      HandlerStays(c, ss[k - 1], steps[k - 1], h);
      HandlerMoves(c, ss[k - 1], steps[k - 1], h);
    }
  }

  /** What the processor accepts as a batch is exactly what arrived with that request. */
  lemma BatchesArrived(c: Config, ss: seq<State>, steps: seq<Step>, k: nat, i: nat)
    requires IsRun(c, ss, steps) && k <= |steps| && i < |ss[k].inputs| && ss[k].inputs[i].TookBatch?
    ensures CameAs(steps, k, ss[k].inputs[i].h, Some(ss[k].inputs[i].events))
  {
    var x := ss[k].inputs[i];
    RunIsInStep(c, ss, steps, k);
    HandlersHoldArrivals(c, ss, steps, k, x.h);
    var n :| 0 <= n < |ss[k].inputs| && ss[k].inputs[n] == TookBatch(x.h, ss[k].handlers[x.h].events);
    assert n == i;
  }

  /** A batch answered 200 is what arrived with its request, and was accepted by the processor, exactly once. */
  lemma AnsweredOnlyWhenAccepted(c: Config, ss: seq<State>, steps: seq<Step>, k: nat, h: nat)
    requires IsRun(c, ss, steps) && k <= |steps|
    requires h in ss[k].handlers && ss[k].handlers[h].Answered?
    ensures CameAs(steps, k, h, Some(ss[k].handlers[h].events))
    ensures exists i ::
              && 0 <= i < |ss[k].inputs|
              && ss[k].inputs[i] == TookBatch(h, ss[k].handlers[h].events)
              && forall j :: 0 <= j < |ss[k].inputs| && ss[k].inputs[j].TookBatch? && ss[k].inputs[j].h == h ==> j == i
  {
    RunIsInStep(c, ss, steps, k);
    HandlersHoldArrivals(c, ss, steps, k, h);
    var i :| 0 <= i < |ss[k].inputs| && ss[k].inputs[i] == TookBatch(h, ss[k].handlers[h].events);
  }

  lemma StepAddsNoBatch(c: Config, s: State, st: Step)
    requires Enabled(s, st) && StopOrder(s) && !s.serverUp
    ensures !Apply(c, s, st).serverUp && AllEvents(Apply(c, s, st).inputs) == AllEvents(s.inputs)
  {
    if st == Working(InvokeProcessor) {
      assert Apply(c, s, st).inputs == s.inputs + [TookInvoke(s.w.req)];
      assert Apply(c, s, st).inputs[..|s.inputs|] == s.inputs;
    }
  }

  /** Once the producer is down the processor accepts no further event, in any run. */
  lemma {:induction false} NothingAfterProducer(c: Config, ss: seq<State>, steps: seq<Step>, j: nat, k: nat)
    requires IsRun(c, ss, steps) && j <= k <= |steps| && !ss[j].serverUp
    ensures !ss[k].serverUp && AllEvents(ss[k].inputs) == AllEvents(ss[j].inputs)
    decreases k
  {
    if k > j {
      NothingAfterProducer(c, ss, steps, j, k - 1);
      RunStopsInOrder(c, ss, steps, k - 1);
      StepAddsNoBatch(c, ss[k - 1], steps[k - 1]);
    }
  }
}
