/** Why the regime is needed: reachable states in which natural claims fail. */
module Witnesses {
  import opened Framing
  import opened Telemetry
  import opened Durations
  import opened Batches
  import opened PusherState
  import opened Pipeline
  import opened Queue
  import opened DoneChannel
  import opened Blocking
  import opened Doom

  predicate Avoids(steps: seq<Step>, banned: set<Work>) {
    forall k :: 0 <= k < |steps| && steps[k].Working? ==> steps[k].k !in banned
  }

  /** Some run without the banned steps ends in s. */
  ghost predicate Reached(c: Config, s: State, banned: set<Work>) {
    exists ss: seq<State>, steps: seq<Step> :: IsRun(c, ss, steps) && ss[|steps|] == s && Avoids(steps, banned)
  }

  lemma Start(c: Config, banned: set<Work>)
    ensures Reached(c, INIT, banned)
  {
    assert IsRun(c, [INIT], []);
  }

  lemma AppendStep(c: Config, ss: seq<State>, steps: seq<Step>, st: Step)
    requires IsRun(c, ss, steps) && Enabled(ss[|steps|], st)
    ensures IsRun(c, ss + [Apply(c, ss[|steps|], st)], steps + [st])
  {
    var ss', steps' := ss + [Apply(c, ss[|steps|], st)], steps + [st];
    forall k | 0 <= k < |steps'|
      ensures Enabled(ss'[k], steps'[k]) && ss'[k + 1] == Apply(c, ss'[k], steps'[k])
    {
      if k < |steps| {
        assert ss'[k] == ss[k] && ss'[k + 1] == ss[k + 1] && steps'[k] == steps[k];
      }
    }
  }

  lemma Extend(c: Config, s: State, st: Step, banned: set<Work>)
    requires Reached(c, s, banned) && Enabled(s, st) && (st.Working? ==> st.k !in banned)
    ensures Reached(c, Apply(c, s, st), banned)
  {
    var ss: seq<State>, steps: seq<Step> :| IsRun(c, ss, steps) && ss[|steps|] == s && Avoids(steps, banned);
    AppendStep(c, ss, steps, st);
    var ss', steps' := ss + [Apply(c, s, st)], steps + [st];
    assert IsRun(c, ss', steps') && ss'[|steps'|] == Apply(c, s, st);
  }

  /** With flush-at-next-invoke a no-deadline run can enter the cyclic wait, and stays in it whatever happens: a batch
      is in the processor's hands when an invocation finds the buffer empty. */
  lemma CyclicWaitIsReachable(c: Config)
    requires c.flushAtNextInvoke
    ensures exists s :: Reached(c, s, {Deadline}) && CyclicWait(s)
  {
    var a, b, d, e := Working(Invocation("r")), Http(Arrive(0, Some([]))), Http(Accept(0)), Select(Invoke);
    var s1 := Apply(c, INIT, a);
    var s2 := Apply(c, s1, b);
    var s3 := Apply(c, s2, d);
    var s4 := Apply(c, s3, e);
    Start(c, {Deadline});
    Extend(c, INIT, a, {Deadline});
    Extend(c, s1, b, {Deadline});
    Extend(c, s2, d, {Deadline});
    Extend(c, s3, e, {Deadline});
    assert CyclicWait(s4);
  }

  /** A batch of one function log. */
  const ONE_LOG: seq<Event> := [Event("", Function, Text("x"))]

  lemma OneLogOneRecord(c: Config, current: string, table: Table)
    requires c.codec.Sound()
    ensures var r := Process(c.codec, current, table, ONE_LOG);
            |r.bodies| == 1 && !r.runtimeDone && |Frame(r.bodies)| > 0
  {
    assert ONE_LOG[..0] == [];
    var r := Process(c.codec, current, table, ONE_LOG);
    assert Process(c.codec, current, table, ONE_LOG[..0]) == Progress(table, [], false);
    FrameEmpty(r.bodies);
  }

  /** s' is s with one more log in an idle pusher's buffer, delivered by handler h. */
  predicate Fed(s: State, s': State, h: nat, bytes: Bytes, body: Bytes) {
    && |bytes| > 0
    && s'.p == Receive(s.p, bytes, [body])
    && s'.proc.pc.Idle?
    && s' == s.(p := s'.p, proc := s'.proc, handlers := s.handlers[h := Taken(ONE_LOG)], inputs := s'.inputs)
  }

  /** a, b and d can be taken one after the other, from s to s'. */
  predicate InThree(c: Config, s: State, a: Step, b: Step, d: Step, s': State) {
    && Enabled(s, a)
    && Enabled(Apply(c, s, a), b)
    && Enabled(Apply(c, Apply(c, s, a), b), d)
    && s' == Apply(c, Apply(c, Apply(c, s, a), b), d)
  }

  lemma ExtendByThree(c: Config, s: State, a: Step, b: Step, d: Step, s': State, banned: set<Work>)
    requires Reached(c, s, banned) && InThree(c, s, a, b, d, s')
    requires forall st :: st in [a, b, d] && st.Working? ==> st.k !in banned
    ensures Reached(c, s', banned)
  {
    assert a in [a, b, d] && b in [a, b, d] && d in [a, b, d];
    Extend(c, s, a, banned);
    Extend(c, Apply(c, s, a), b, banned);
    Extend(c, Apply(c, Apply(c, s, a), b), d, banned);
  }

  lemma FeedSteps(c: Config, s: State, h: nat) returns (s': State, bytes: Bytes, body: Bytes)
    requires c.codec.Sound()
    requires s.serverUp && h !in s.handlers && s.proc.pc.Idle? && s.p.pc.Selecting?
    ensures InThree(c, s, Http(Arrive(h, Some(ONE_LOG))), Http(Accept(h)), Select(BytesIn), s')
    ensures Fed(s, s', h, bytes, body)
  {
    var s1 := Apply(c, s, Http(Arrive(h, Some(ONE_LOG))));
    var s2 := Apply(c, s1, Http(Accept(h)));
    s' := Apply(c, s2, Select(BytesIn));
    OneLogOneRecord(c, s.proc.reqId, s.proc.table);
    var r := Process(c.codec, s.proc.reqId, s.proc.table, ONE_LOG);
    bytes, body := Frame(r.bodies), r.bodies[0];
    assert r.bodies == [body];
  }

  lemma Feed(c: Config, s: State, h: nat, banned: set<Work>) returns (s': State, bytes: Bytes, body: Bytes)
    requires c.codec.Sound() && Reached(c, s, banned)
    requires s.serverUp && h !in s.handlers && s.proc.pc.Idle? && s.p.pc.Selecting?
    ensures Reached(c, s', banned) && Fed(s, s', h, bytes, body)
  {
    s', bytes, body := FeedSteps(c, s, h);
    ExtendByThree(c, s, Http(Arrive(h, Some(ONE_LOG))), Http(Accept(h)), Select(BytesIn), s', banned);
  }

  /** One record is in flight under invocation 0, whose worker waits. */
  predicate UnderWay(s: State, bytes: Bytes, body: Bytes) {
    && s.w == Awaiting(0) && s.dead == {} && s.nextInv == 1 && s.force.queue.None? && s.serverUp
    && s.handlers.Keys == {0} && s.handlers[0].Taken? && s.stop == INIT.stop && s.proc.pc.Idle?
    && s.p == Pusher(EMPTY, Of(0), Some(0), [Sending(Of(0), Chunk(bytes, [Rec(0, body)]))], Selecting,
                     [Rec(0, body)], [], 0)
  }

  lemma FlushSteps(c: Config, s: State, bytes: Bytes, body: Bytes) returns (s': State)
    requires c.flushAtNextInvoke && Fed(INIT, s, 0, bytes, body)
    ensures InThree(c, s, Working(Invocation("r")), Select(Invoke), Working(InvokeProcessor), s')
    ensures UnderWay(s', bytes, body)
  {
    assert s.p == Pusher(Chunk(bytes, [Rec(0, body)]), Background, None, [], Selecting, [Rec(0, body)], [], |bytes|);
    var s1 := Apply(c, s, Working(Invocation("r")));
    var s2 := Apply(c, s1, Select(Invoke));
    s' := Apply(c, s2, Working(InvokeProcessor));
  }

  /** A batch that ends request "r". */
  const ONE_END: seq<Event> := [Event("", PlatformRuntimeDone, Object(map["requestId" := Text("r")]))]

  lemma OneEndOneRecord(c: Config)
    requires c.codec.Sound()
    ensures var r := Process(c.codec, "r", map[], ONE_END);
            |r.bodies| == 1 && r.runtimeDone && |Frame(r.bodies)| > 0
  {
    assert ONE_END[..0] == [];
    assert RequestId(ONE_END[0]) == Some("r");
    var r := Process(c.codec, "r", map[], ONE_END);
    assert Process(c.codec, "r", map[], ONE_END[..0]) == Progress(map[], [], false);
    FrameEmpty(r.bodies);
  }

  /** Invocation 0 for request "r" is with pusher and processor, and nothing has happened yet. */
  predicate Begun(s: State) {
    s == INIT.(p := INITIAL.(ctx := Of(0), doneC := Some(0)), proc := Proc("r", map[], Idle), w := Awaiting(0),
               nextInv := 1,
               inputs := [TookInvoke("r")])
  }

  lemma BeginSteps(c: Config) returns (s: State)
    requires !c.flushAtNextInvoke
    ensures InThree(c, INIT, Working(Invocation("r")), Select(Invoke), Working(InvokeProcessor), s)
    ensures Begun(s)
  {
    s := Apply(c, Apply(c, Apply(c, INIT, Working(Invocation("r"))), Select(Invoke)), Working(InvokeProcessor));
  }

  lemma EndSteps(c: Config, s: State) returns (s3: State, bytes: Bytes, body: Bytes)
    requires c.codec.Sound() && Begun(s)
    ensures InThree(c, s, Http(Arrive(0, Some(ONE_END))), Http(Accept(0)), Select(BytesIn), s3)
    ensures |bytes| > 0 && s3.p == Receive(s.p, bytes, [body])
    ensures s3.proc.pc.Signalling? && s3.handlers == map[0 := Taken(ONE_END)]
    ensures s3 == s.(p := s3.p, proc := s3.proc, handlers := s3.handlers, inputs := s3.inputs)
  {
    OneEndOneRecord(c);
    var r := Process(c.codec, "r", map[], ONE_END);
    bytes, body := Frame(r.bodies), r.bodies[0];
    assert r.bodies == [body];
    var s2 := Apply(c, Apply(c, s, Http(Arrive(0, Some(ONE_END)))), Http(Accept(0)));
    s3 := Apply(c, s2, Select(BytesIn));
  }

  lemma SignalFlushes(c: Config, s: State, bytes: Bytes, body: Bytes)
    requires !c.flushAtNextInvoke && |bytes| > 0 && s.proc.pc.Signalling? && s.handlers == map[0 := Taken(ONE_END)]
    requires s.w == Awaiting(0) && s.dead == {} && s.nextInv == 1 && s.force.queue.None?
    requires s.serverUp && s.stop == INIT.stop
    requires s.p == Receive(INITIAL.(ctx := Of(0), doneC := Some(0)), bytes, [body])
    ensures Enabled(s, Select(RuntimeDone)) && UnderWay(Apply(c, s, Select(RuntimeDone)), bytes, body)
  {
    assert s.p == Pusher(Chunk(bytes, [Rec(0, body)]), Of(0), Some(0), [], Selecting, [Rec(0, body)], [], |bytes|);
  }

  lemma SignalledFlushUnderWay(c: Config, banned: set<Work>) returns (s: State, bytes: Bytes, body: Bytes)
    requires c.codec.Sound() && !c.flushAtNextInvoke && banned <= {Deadline, SeeDeadline}
    ensures Reached(c, s, banned) && UnderWay(s, bytes, body)
  {
    Start(c, banned);
    var s3 := BeginSteps(c);
    ExtendByThree(c, INIT, Working(Invocation("r")), Select(Invoke), Working(InvokeProcessor), s3, banned);
    var s6;
    s6, bytes, body := EndSteps(c, s3);
    ExtendByThree(c, s3, Http(Arrive(0, Some(ONE_END))), Http(Accept(0)), Select(BytesIn), s6, banned);
    SignalFlushes(c, s6, bytes, body);
    Extend(c, s6, Select(RuntimeDone), banned);
    s := Apply(c, s6, Select(RuntimeDone));
  }

  /** In either mode a flush can be in flight: begun by the next invocation, or by the runtime-done signal. */
  lemma FlushUnderWay(c: Config, banned: set<Work>) returns (s: State, bytes: Bytes, body: Bytes)
    requires c.codec.Sound() && banned <= {Deadline, SeeDeadline}
    ensures Reached(c, s, banned) && UnderWay(s, bytes, body)
  {
    if !c.flushAtNextInvoke {
      s, bytes, body := SignalledFlushUnderWay(c, banned);
    } else {
      Start(c, banned);
      var s3;
      s3, bytes, body := Feed(c, INIT, 0, banned);
      s := FlushSteps(c, s3, bytes, body);
      ExtendByThree(c, s3, Working(Invocation("r")), Select(Invoke), Working(InvokeProcessor), s, banned);
    }
  }

  lemma OvertakingSteps(c: Config, s: State, r0: Rec, r1: Rec) returns (s': State)
    requires s.p.pc.Selecting? && s.p.ctx == Of(0) && s.w == Awaiting(0) && s.dead == {}
    requires s.p.received == [r0, r1] && s.p.departed == [] && |s.p.buf.bytes| > 0 && s.p.buf.recs == [r1]
    ensures InThree(c, s, Working(Deadline), Select(ContextDone), Ending(PushReturn(true)), s')
    ensures s'.p.pc.Selecting? && s'.p.received == [r0, r1] && s'.p.departed == [Departure(r1, Delivered)]
    ensures s'.w == s.w && s'.p.doneC == s.p.doneC && s'.p.flushes == s.p.flushes
  {
    var s1 := Apply(c, s, Working(Deadline));
    var s2 := Apply(c, s1, Select(ContextDone));
    assert s2.p.pc == Pushing(ForContextDone, s.p.buf) && s2.p.received == [r0, r1] && s2.p.departed == [];
    s' := Apply(c, s2, Ending(PushReturn(true)));
    assert s'.p == PushReturns(s2.p, true);
  }

  lemma HeadOfLine(p: Pusher)
    requires |p.departed| > 0
    ensures |Line(p)| > 0 && Line(p)[0] == p.departed[0].rec
  {
  }

  lemma FinishingSteps(c: Config, s: State, r1: Rec) returns (s': State)
    requires s.p.pc.Selecting? && s.w == Awaiting(0) && s.p.doneC == Some(0)
    requires |s.p.flushes| == 1 && s.p.flushes[0].Sending? && s.p.departed == [Departure(r1, Delivered)]
    ensures InThree(c, s, Ending(FlushReturn(0, true)), Select(FlushResponse(0)), Ending(DoneTaken), s')
    ensures s'.p.pc.Selecting? && s'.w.Waiting? && s'.p.received == s.p.received
    ensures |s'.p.departed| > 0 && s'.p.departed[0].rec == r1
  {
    var s1 := Apply(c, s, Ending(FlushReturn(0, true)));
    var s2 := Apply(c, s1, Select(FlushResponse(0)));
    assert s2.p.pc == SendingDone(false) && s2.p.doneC == Some(0);
    s' := Apply(c, s2, Ending(DoneTaken));
  }

  lemma Overtaken(c: Config) returns (s: State, r1: Rec)
    requires c.codec.Sound()
    ensures Reached(c, s, {SeeDeadline}) && s.p.pc.Selecting? && s.w == Awaiting(0) && s.p.doneC == Some(0)
    ensures |s.p.flushes| == 1 && s.p.flushes[0].Sending? && s.p.departed == [Departure(r1, Delivered)]
    ensures |s.p.received| == 2 && s.p.received[0] != r1
  {
    var s0, bytes0, body0 := FlushUnderWay(c, {SeeDeadline});
    var s3, bytes1, body1 := Feed(c, s0, 1, {SeeDeadline});
    r1 := Rec(1, body1);
    assert s3.p.received == [Rec(0, body0), r1] && s3.p.buf.recs == [r1] && s3.p.buf.bytes == bytes1;
    s := OvertakingSteps(c, s3, Rec(0, body0), r1);
    ExtendByThree(c, s3, Working(Deadline), Select(ContextDone), Ending(PushReturn(true)), s, {SeeDeadline});
  }

  /** In either mode one expired context breaks the queue although every Worker.Invoke ended through its done channel:
      the buffered record overtakes the one in flight. */
  lemma DeadlineBreaksTheQueue(c: Config)
    requires c.codec.Sound()
    ensures exists s :: Reached(c, s, {SeeDeadline}) && s.w.Waiting? && !StopTaken(s.p.pc) && Line(s.p) != s.p.received
  {
    var s6, r1 := Overtaken(c);
    var s9 := FinishingSteps(c, s6, r1);
    ExtendByThree(c, s6, Ending(FlushReturn(0, true)), Select(FlushResponse(0)), Ending(DoneTaken), s9, {SeeDeadline});
    HeadOfLine(s9.p);
  }

  lemma GivingUpSteps(c: Config, s: State, bytes: Bytes, body: Bytes) returns (s': State)
    requires UnderWay(s, bytes, body)
    ensures InThree(c, s, Working(Deadline), Working(SeeDeadline), Working(GiveUpForce), s')
    ensures s'.w.Waiting? && s'.nextInv == 1 && s'.p == s.p
  {
    s' := Apply(c, Apply(c, Apply(c, s, Working(Deadline)), Working(SeeDeadline)), Working(GiveUpForce));
  }

  /** In either mode a deadline during a flush, and a worker that gives up on its force flush, strand the pusher. */
  lemma DeadlineStrandsThePusher(c: Config)
    requires c.codec.Sound()
    ensures exists s :: Reached(c, s, {}) && Lost(s) && s.w.Waiting?
  {
    var s, bytes, body := FlushUnderWay(c, {});
    var s3 := GivingUpSteps(c, s, bytes, body);
    ExtendByThree(c, s, Working(Deadline), Working(SeeDeadline), Working(GiveUpForce), s3, {});
    var s4 := Apply(c, s3, Ending(FlushReturn(0, true)));
    var s5 := Apply(c, s4, Select(FlushResponse(0)));
    Extend(c, s3, Ending(FlushReturn(0, true)), {});
    Extend(c, s4, Select(FlushResponse(0)), {});
    assert Lost(s5);
  }

  lemma OfferThenExpire(c: Config, s: State, bytes: Bytes, body: Bytes) returns (s3: State, s4: State)
    requires UnderWay(s, bytes, body)
    ensures InThree(c, s, Ending(FlushReturn(0, true)), Select(FlushResponse(0)), Working(Deadline), s3)
    ensures Enabled(s3, Working(SeeDeadline)) && s4 == Apply(c, s3, Working(SeeDeadline))
    ensures Lost(s4) && s4.w.OfferingForce?
  {
    var s2 := Apply(c, Apply(c, s, Ending(FlushReturn(0, true))), Select(FlushResponse(0)));
    assert s2.p.pc == SendingDone(false) && s2.p.doneC == Some(0);
    s3 := Apply(c, s2, Working(Deadline));
    s4 := Apply(c, s3, Working(SeeDeadline));
  }

  /** In either mode the pusher is lost at once when the worker, with done already offered to it, takes the ctx.Done
      branch. */
  lemma ExpiryLosesThePusher(c: Config)
    requires c.codec.Sound()
    ensures exists s :: Reached(c, s, {}) && Lost(s) && s.w.OfferingForce?
  {
    var s, bytes, body := FlushUnderWay(c, {});
    var s3, s4 := OfferThenExpire(c, s, bytes, body);
    ExtendByThree(c, s, Ending(FlushReturn(0, true)), Select(FlushResponse(0)), Working(Deadline), s3, {});
    Extend(c, s3, Working(SeeDeadline), {});
  }

  lemma ExpireBeforeSignal(c: Config, s: State, bytes: Bytes, body: Bytes) returns (s3: State)
    requires |bytes| > 0 && s.p == Receive(INITIAL.(ctx := Of(0), doneC := Some(0)), bytes, [body])
    requires s.proc.pc.Signalling? && s.w == Awaiting(0) && s.dead == {}
    ensures InThree(c, s, Working(Deadline), Select(ContextDone), Ending(PushReturn(true)), s3)
    ensures s3.proc.pc.Signalling? && s3.w == Awaiting(0)
    ensures s3.p.pc.Selecting? && s3.p.buf == EMPTY && s3.p.flushes == []
  {
    var s2 := Apply(c, Apply(c, s, Working(Deadline)), Select(ContextDone));
    assert s2.p.pc == Pushing(ForContextDone, s.p.buf) && s2.p.buf == EMPTY;
    s3 := Apply(c, s2, Ending(PushReturn(true)));
    assert s3.p == PushReturns(s2.p, true);
  }

  /** In default mode an expired context takes the END record away before its signal, though every Worker.Invoke ends
      through its done channel: the signal finds the buffer empty, starts no flush, and the worker still waits. */
  lemma DeadlineEmptiesBeforeSignal(c: Config)
    requires c.codec.Sound() && !c.flushAtNextInvoke
    ensures exists s :: Reached(c, s, {SeeDeadline}) && s.proc.pc.Signalling? && s.p.pc.Selecting? && s.p.buf == EMPTY
                        && |s.p.flushes| == 0 && s.w.Awaiting?
  {
    Start(c, {SeeDeadline});
    var s3 := BeginSteps(c);
    ExtendByThree(c, INIT, Working(Invocation("r")), Select(Invoke), Working(InvokeProcessor), s3, {SeeDeadline});
    var s6, bytes, body := EndSteps(c, s3);
    ExtendByThree(c, s3, Http(Arrive(0, Some(ONE_END))), Http(Accept(0)), Select(BytesIn), s6, {SeeDeadline});
    var s9 := ExpireBeforeSignal(c, s6, bytes, body);
    ExtendByThree(c, s6, Working(Deadline), Select(ContextDone), Ending(PushReturn(true)), s9, {SeeDeadline});
  }

  lemma SignalSteps(c: Config) returns (s3: State, s6: State)
    ensures InThree(c, INIT, Working(Invocation("r")), Select(Invoke), Halting(CallStop), s3)
    ensures Enabled(s3, Halting(ProducerStopped))
    ensures Enabled(Apply(c, s3, Halting(ProducerStopped)), Halting(StopProcessor))
    ensures s6 == Apply(c, Apply(c, s3, Halting(ProducerStopped)), Halting(StopProcessor))
    ensures Doomed(s6) && s6.stop.phase.AwaitProc? && s6.proc.pc == EmittingLast([])
    ensures !c.flushAtNextInvoke ==> s6.p == INITIAL.(ctx := Of(0), doneC := Some(0))
  {
    s3 := Apply(c, Apply(c, Apply(c, INIT, Working(Invocation("r"))), Select(Invoke)), Halting(CallStop));
    assert s3.handlers == map[];
    s6 := Apply(c, Apply(c, s3, Halting(ProducerStopped)), Halting(StopProcessor));
  }

  lemma SignalRun(c: Config) returns (s6: State)
    ensures Reached(c, s6, {Deadline}) && Doomed(s6) && s6.stop.phase.AwaitProc? && s6.proc.pc == EmittingLast([])
    ensures !c.flushAtNextInvoke ==> s6.p == INITIAL.(ctx := Of(0), doneC := Some(0))
  {
    var s3;
    s3, s6 := SignalSteps(c);
    Start(c, {Deadline});
    ExtendByThree(c, INIT, Working(Invocation("r")), Select(Invoke), Halting(CallStop), s3, {Deadline});
    Extend(c, s3, Halting(ProducerStopped), {Deadline});
    Extend(c, Apply(c, s3, Halting(ProducerStopped)), Halting(StopProcessor), {Deadline});
  }

  /** In either mode, with no deadline at all: a signal stops the processor after the pusher has taken an invocation and
      before the processor has. */
  lemma SignalDoomsStop(c: Config)
    ensures exists s :: Reached(c, s, {Deadline}) && Doomed(s) && s.stop.phase.AwaitProc?
  {
    var s6 := SignalRun(c);
  }

  /** After a signal the Shutdown event that was already fetched lets main return while Stop waits for the producer. */
  lemma ShutdownOvertakesStop(c: Config)
    ensures exists s :: Reached(c, s, {Deadline}) && s.w.Returned? && s.stop == Stop(ProducerDown, false, 1)
  {
    var s1 := Apply(c, INIT, Halting(CallStop));
    Start(c, {Deadline});
    Extend(c, INIT, Halting(CallStop), {Deadline});
    Extend(c, s1, Halting(ShutdownEvent), {Deadline});
    assert Apply(c, s1, Halting(ShutdownEvent)).w.Returned?;
  }

  lemma StopMessageSteps(c: Config, s: State) returns (s': State)
    requires s.stop.phase.AwaitProc? && s.proc.pc == EmittingLast([])
    requires s.p == INITIAL.(ctx := Of(0), doneC := Some(0))
    ensures InThree(c, s, Select(BytesIn), Halting(ProcessorStopped), Select(StopMessage), s')
    ensures s'.p.pc == SendingDone(true) && s'.proc.pc.Gone? && s'.w == s.w
  {
    var s1 := Apply(c, s, Select(BytesIn));
    assert s1.p.buf.bytes == [];
    s' := Apply(c, Apply(c, s1, Halting(ProcessorStopped)), Select(StopMessage));
  }

  /** In default mode that run goes on to a pusher offering done to a worker that waits for a processor that is gone. */
  lemma SignalDeadlocksThePusher(c: Config)
    requires !c.flushAtNextInvoke
    ensures exists s :: Reached(c, s, {Deadline}) && Doomed(s) && s.p.pc == SendingDone(true) && s.proc.pc.Gone?
  {
    var s6 := SignalRun(c);
    var s9 := StopMessageSteps(c, s6);
    ExtendByThree(c, s6, Select(BytesIn), Halting(ProcessorStopped), Select(StopMessage), s9, {Deadline});
  }

  lemma StopDuringFlush(c: Config, s: State, bytes: Bytes, body: Bytes) returns (s3: State)
    requires UnderWay(s, bytes, body)
    ensures InThree(c, s, Halting(CallStop), Halting(ProducerStopped), Halting(StopProcessor), s3)
    ensures s3.p == s.p && s3.w == Awaiting(0) && s3.stop == Stop(AwaitProc, false, 1) && s3.proc.pc == EmittingLast([])
  {
    s3 := Apply(c, Apply(c, Apply(c, s, Halting(CallStop)), Halting(ProducerStopped)), Halting(StopProcessor));
  }

  lemma LeaveFlush(c: Config, s: State) returns (s3: State, s5: State)
    requires s.w == Awaiting(0) && s.stop == Stop(AwaitProc, false, 1) && s.proc.pc == EmittingLast([])
    requires s.p.pc.Selecting? && s.p.doneC == Some(0) && s.p.buf == EMPTY
    ensures InThree(c, s, Select(BytesIn), Halting(ProcessorStopped), Select(StopMessage), s3)
    ensures Enabled(s3, Ending(DoneTaken)) && Enabled(Apply(c, s3, Ending(DoneTaken)), Ending(StoppedTaken))
    ensures s5 == Apply(c, Apply(c, s3, Ending(DoneTaken)), Ending(StoppedTaken))
    ensures s5.stop.phase.Finished? && s5.p.flushes == s.p.flushes
  {
    var s1 := Apply(c, s, Select(BytesIn));
    assert s1.p.buf.bytes == [];
    s3 := Apply(c, Apply(c, s1, Halting(ProcessorStopped)), Select(StopMessage));
    s5 := Apply(c, Apply(c, s3, Ending(DoneTaken)), Ending(StoppedTaken));
  }

  /** In either mode and with no deadline, a Stop called by a signal can return while a flush is in flight. */
  lemma SignalStopLeavesAFlush(c: Config)
    requires c.codec.Sound()
    ensures exists s :: Reached(c, s, {Deadline}) && s.stop.phase.Finished? && |s.p.flushes| == 1
                        && |s.p.flushes[0].load.recs| == 1
  {
    var s, bytes, body := FlushUnderWay(c, {Deadline});
    var s3 := StopDuringFlush(c, s, bytes, body);
    ExtendByThree(c, s, Halting(CallStop), Halting(ProducerStopped), Halting(StopProcessor), s3, {Deadline});
    var s6, s8 := LeaveFlush(c, s3);
    ExtendByThree(c, s3, Select(BytesIn), Halting(ProcessorStopped), Select(StopMessage), s6, {Deadline});
    Extend(c, s6, Ending(DoneTaken), {Deadline});
    Extend(c, Apply(c, s6, Ending(DoneTaken)), Ending(StoppedTaken), {Deadline});
  }

  /** Any later non-function event in its batch mutes a runtimeDone, unless it ends the current request itself. */
  lemma LaterEventMutesSignal(c: Config, current: string, table: Table, events: seq<Event>, e: Event)
    requires !e.kind.Function? && !RuntimeDoneOf(e, current)
    ensures !Process(c.codec, current, table, events + [e]).runtimeDone
  {
    SignalIffLastPlatformEnds(c.codec, current, table, events + [e]);
  }
}
