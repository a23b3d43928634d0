/** The extension as one step system: HTTP handlers, the processor, the pusher with its flush goroutines, the
    goroutine that handles invocations, and the callers of Stop. Every exchange on an unbuffered channel is one
    joint step. A label carries every choice the step makes, so Apply is a function. */
module Pipeline {
  import opened Framing
  import opened Telemetry
  import opened Durations
  import opened Batches
  import opened PusherState

  /** An HTTP handler: blocked handing its batch over, past that, answered 200, or answered 400. */
  datatype Handler = Offering(events: seq<Event>) | Taken(events: seq<Event>) | Answered(events: seq<Event>) | Rejected

  datatype ProcPc =
    | Idle
    | Emitting(bytes: Bytes, bodies: seq<Bytes>, runtimeDone: bool)
    | Signalling
    | EmittingLast(bytes: Bytes)
    | SayingStopped
    | Gone

  datatype Proc = Proc(reqId: string, table: Table, pc: ProcPc)

  /** The goroutine of handleInvocations and Worker.Invoke: where it is, and in which invocation. */
  datatype Worker =
    | Waiting
    | ToPusher(inv: nat, req: string)
    | ToProcessor(inv: nat, req: string)
    | Awaiting(inv: nat)
    | OfferingForce(inv: nat, q: nat)
    | AwaitingForce(inv: nat, q: nat)
    | InStop
    | Returned

  datatype StopPhase = NotStopping | ProducerDown | ToProc | AwaitProc | ToPush | AwaitPush | Finished

  /** The one body of Worker.Stop: its phase, whether the Shutdown event runs it, and how often a body began. */
  datatype Stop = Stop(phase: StopPhase, byShutdown: bool, begun: nat)

  /** The capacity-1 channel of force-flush requests and the capacity-1 reply channel of each request;
      `taken` is history: what the buffer held when the pusher took the request up. */
  datatype Force = Force(queue: Option<nat>, replies: map<nat, bool>, taken: map<nat, seq<Rec>>, next: nat)

  /** What NextEvent can still return: the signal handler cancels its context, after which at most one event that it
      had already fetched is handed out. */
  datatype Feed = Live | OneFetched | Cancelled

  /** dead: the invocation contexts that are done. inputs: history of what the processor accepted. */
  datatype State = State(p: Pusher, proc: Proc, w: Worker, stop: Stop, force: Force, handlers: map<nat, Handler>,
                         serverUp: bool, feed: Feed, dead: set<nat>, nextInv: nat, inputs: seq<Input>)

  const INIT := State(INITIAL, Proc("", map[], Idle), Waiting, Stop(NotStopping, false, 0),
                      Force(None, map[], map[], 0), map[], true, Live, {}, 0, [])

  /** Steps of the HTTP handlers. */
  datatype Intake =
    | Arrive(h: nat, body: Option<seq<Event>>)  // a request arrives and is decoded, or not
    | Accept(h: nat)                            // logC
    | Answer(h: nat)                            // the handler writes 200

  /** The seven branches of the pusher's select. */
  datatype Branch =
    | BytesIn                                   // bufferC
    | RuntimeDone                               // runtimeDoneC
    | ContextDone
    | Invoke                                    // Pusher.invokeC
    | FlushResponse(k: nat)                     // flushRespC, from flush goroutine k
    | StopMessage                               // Pusher.stopC
    | ForceFlush                                // forceFlushing

  /** What ends a wait of the pusher or of a flush goroutine. */
  datatype Outcome =
    | PushReturn(ok: bool)                      // a push by the pusher's loop returns
    | FlushReturn(k: nat, ok: bool)             // the push of flush goroutine k returns
    | DoneTaken                                 // doneC
    | StoppedTaken                              // Pusher.stoppedC

  /** Steps of the goroutine that handles invocations. */
  datatype Work =
    | Invocation(req: string)                   // NextEvent returns an Invoke event
    | InvokeProcessor                           // Processor.invokeC
    | Deadline                                  // the context of the current invocation expires
    | SeeDeadline                               // Worker.Invoke takes its ctx.Done branch
    | OfferForce                                // the request enters forceFlushing
    | GiveUpForce                               // the caller's own context is done first
    | ReceiveForce                              // the caller takes the reply
    | NextEventFails

  /** Steps of Worker.Stop. */
  datatype Halt =
    | ShutdownEvent                             // handleInvocations calls Stop
    | CallStop                                  // the signal handler cancels NextEvent and calls Stop
    | ProducerStopped                           // Producer.Shutdown returns, its handlers through
    | StopProcessor                             // Processor.stopC; draining the unbuffered logC then finds nothing
    | ProcessorStopped                          // Processor.stoppedC

  datatype Step = Http(i: Intake) | Select(b: Branch) | Ending(o: Outcome) | Working(k: Work) | Halting(h: Halt)

  /** The invocation whose Worker.Invoke has not returned. */
  function Current(w: Worker): Option<nat> {
    match w
    case ToPusher(i, _) => Some(i)
    case ToProcessor(i, _) => Some(i)
    case Awaiting(i) => Some(i)
    case OfferingForce(i, _) => Some(i)
    case AwaitingForce(i, _) => Some(i)
    case _ => None
  }

  predicate IsDone(ctx: Ctx, dead: set<nat>) {
    ctx.Of? && ctx.inv in dead
  }

  predicate IntakeEnabled(s: State, i: Intake) {
    match i
    case Arrive(h, _) => s.serverUp && h !in s.handlers
    case Accept(h) => h in s.handlers && s.handlers[h].Offering? && s.proc.pc.Idle?
    case Answer(h) => h in s.handlers && s.handlers[h].Taken?
  }

  predicate SelectEnabled(s: State, b: Branch) {
    && s.p.pc.Selecting?
    && match b
       case BytesIn => s.proc.pc.Emitting? || s.proc.pc.EmittingLast?
       case RuntimeDone => s.proc.pc.Signalling?
       case ContextDone => IsDone(s.p.ctx, s.dead)
       case Invoke => s.w.ToPusher?
       case FlushResponse(k) => k < |s.p.flushes| && s.p.flushes[k].Replying?
       case StopMessage => s.stop.phase.ToPush?
       case ForceFlush => s.force.queue.Some?
  }

  predicate OutcomeEnabled(s: State, o: Outcome) {
    match o
    case PushReturn(_) => s.p.pc.Pushing?
    case FlushReturn(k, _) => k < |s.p.flushes| && s.p.flushes[k].Sending?
    case DoneTaken => s.p.pc.SendingDone? && s.w.Awaiting? && s.p.doneC == Some(s.w.inv)
    case StoppedTaken => s.p.pc.SendingStopped? && s.stop.phase.AwaitPush?
  }

  predicate WorkEnabled(s: State, k: Work) {
    match k
    case Invocation(_) => s.w.Waiting? && !s.feed.Cancelled?
    case InvokeProcessor => s.w.ToProcessor? && s.proc.pc.Idle?
    case Deadline => Current(s.w).Some? && Current(s.w).value !in s.dead
    case SeeDeadline => s.w.Awaiting? && s.w.inv in s.dead
    case OfferForce => s.w.OfferingForce? && s.force.queue.None?
    case GiveUpForce => s.w.OfferingForce? || s.w.AwaitingForce?
    case ReceiveForce => s.w.AwaitingForce? && s.w.q in s.force.replies
    case NextEventFails => s.w.Waiting?
  }

  predicate HaltEnabled(s: State, h: Halt) {
    match h
    case ShutdownEvent => s.w.Waiting? && !s.feed.Cancelled?
    case CallStop => true
    case ProducerStopped =>
      s.stop.phase.ProducerDown? && forall h :: h in s.handlers ==> !s.handlers[h].Offering?
    case StopProcessor => s.stop.phase.ToProc? && s.proc.pc.Idle?
    case ProcessorStopped => s.stop.phase.AwaitProc? && s.proc.pc.SayingStopped?
  }

  predicate Enabled(s: State, st: Step) {
    match st
    case Http(i) => IntakeEnabled(s, i)
    case Select(b) => SelectEnabled(s, b)
    case Ending(o) => OutcomeEnabled(s, o)
    case Working(k) => WorkEnabled(s, k)
    case Halting(h) => HaltEnabled(s, h)
  }

  /** Worker.Invoke returns; its deferred cancel ends the context. */
  function Return(s: State, inv: nat): State {
    s.(w := Waiting, dead := s.dead + {inv})
  }

  function AcceptBatch(c: Config, s: State, h: nat): State
    requires h in s.handlers && s.handlers[h].Offering?
  {
    var events := s.handlers[h].events;
    var r := Process(c.codec, s.proc.reqId, s.proc.table, events);
    s.(proc := s.proc.(table := r.table, pc := Emitting(Frame(r.bodies), r.bodies, r.runtimeDone)),
       handlers := s.handlers[h := Taken(events)],
       inputs := s.inputs + [TookBatch(h, events)])
  }

  function TakeOutput(s: State): State
    requires s.proc.pc.Emitting? || s.proc.pc.EmittingLast?
  {
    match s.proc.pc
    case Emitting(bytes, bodies, runtimeDone) =>
      s.(p := Receive(s.p, bytes, bodies), proc := s.proc.(pc := if runtimeDone then Signalling else Idle))
    case EmittingLast(bytes) =>
      s.(p := Receive(s.p, bytes, []), proc := s.proc.(pc := SayingStopped))
  }

  function ReplyTo(f: Force, q: nat, success: bool): Force {
    f.(replies := f.replies[q := success])
  }

  function FinishPush(s: State, ok: bool): State
    requires s.p.pc.Pushing?
  {
    var s1 := s.(p := PushReturns(s.p, ok));
    if s.p.pc.job.ForForce? then s1.(force := ReplyTo(s.force, s.p.pc.job.q, ok)) else s1
  }

  function TakeRequest(s: State): State
    requires s.force.queue.Some?
  {
    var q := s.force.queue.value;
    var f := s.force.(queue := None, taken := s.force.taken[q := s.p.buf.recs]);
    s.(p := TakeForce(s.p, q), force := if |s.p.buf.bytes| > 0 then f else ReplyTo(f, q, true))
  }

  /** The compare-and-swap of Stop: only the first caller runs the body. */
  function BeginStop(s: State, byShutdown: bool): State {
    if s.stop.phase.NotStopping? then s.(stop := Stop(ProducerDown, byShutdown, s.stop.begun + 1)) else s
  }

  function Handed(feed: Feed): Feed {
    if feed.OneFetched? then Cancelled else feed
  }

  /** A NextEvent that is under way may have fetched its event; a later one fails. */
  function Cancel(s: State): Feed {
    if !s.feed.Live? then s.feed else if s.w.Waiting? then OneFetched else Cancelled
  }

  function ApplyIntake(c: Config, s: State, i: Intake): State
    requires IntakeEnabled(s, i)
  {
    match i
    case Arrive(h, body) =>
      s.(handlers := s.handlers[h := if body.Some? then Offering(body.value) else Rejected])
    case Accept(h) => AcceptBatch(c, s, h)
    case Answer(h) => s.(handlers := s.handlers[h := Answered(s.handlers[h].events)])
  }

  function ApplySelect(c: Config, s: State, b: Branch): State
    requires SelectEnabled(s, b)
  {
    match b
    case BytesIn => TakeOutput(s)
    case RuntimeDone =>
      s.(p := TakeRuntimeDone(c, s.p, IsDone(s.p.ctx, s.dead)), proc := s.proc.(reqId := "", pc := Idle))
    case ContextDone => s.(p := TakeContextDone(s.p))
    case Invoke => s.(p := TakeInvoke(c, s.p, s.w.inv), w := ToProcessor(s.w.inv, s.w.req))
    case FlushResponse(k) => s.(p := TakeReply(s.p, k))
    case StopMessage => s.(p := TakeStop(s.p), stop := s.stop.(phase := AwaitPush))
    case ForceFlush => TakeRequest(s)
  }

  function ApplyOutcome(c: Config, s: State, o: Outcome): State
    requires OutcomeEnabled(s, o)
  {
    match o
    case PushReturn(ok) => FinishPush(s, ok)
    case FlushReturn(k, ok) => s.(p := FlushReturns(c, s.p, k, ok))
    case DoneTaken => Return(s.(p := DoneSent(s.p)), s.w.inv)
    case StoppedTaken =>
      s.(p := StoppedSent(s.p), stop := s.stop.(phase := Finished), w := if s.stop.byShutdown then Returned else s.w)
  }

  function ApplyWork(s: State, k: Work): State
    requires WorkEnabled(s, k)
  {
    match k
    case Invocation(req) => s.(w := ToPusher(s.nextInv, req), nextInv := s.nextInv + 1, feed := Handed(s.feed))
    case InvokeProcessor =>
      s.(proc := s.proc.(reqId := s.w.req), w := Awaiting(s.w.inv), inputs := s.inputs + [TookInvoke(s.w.req)])
    case Deadline => s.(dead := s.dead + {Current(s.w).value})
    case SeeDeadline => s.(w := OfferingForce(s.w.inv, s.force.next), force := s.force.(next := s.force.next + 1))
    case OfferForce => s.(w := AwaitingForce(s.w.inv, s.w.q), force := s.force.(queue := Some(s.w.q)))
    case GiveUpForce => Return(s, s.w.inv)
    case ReceiveForce => Return(s, s.w.inv)
    case NextEventFails => s.(w := Returned)
  }

  function ApplyHalt(s: State, h: Halt): State
    requires HaltEnabled(s, h)
  {
    match h
    case ShutdownEvent =>
      var s1 := s.(feed := Handed(s.feed));
      if s.stop.phase.NotStopping? then BeginStop(s1, true).(w := InStop) else s1.(w := Returned)
    case CallStop => BeginStop(s, false).(feed := Cancel(s))
    case ProducerStopped => s.(serverUp := false, stop := s.stop.(phase := ToProc))
    case StopProcessor => s.(proc := s.proc.(pc := EmittingLast([])), stop := s.stop.(phase := AwaitProc))
    case ProcessorStopped => s.(proc := s.proc.(pc := Gone), stop := s.stop.(phase := ToPush))
  }

  function Apply(c: Config, s: State, st: Step): State
    requires Enabled(s, st)
  {
    match st
    case Http(i) => ApplyIntake(c, s, i)
    case Select(b) => ApplySelect(c, s, b)
    case Ending(o) => ApplyOutcome(c, s, o)
    case Working(k) => ApplyWork(s, k)
    case Halting(h) => ApplyHalt(s, h)
  }

  /** Only the pusher's own branches and outcomes move the pusher. */
  lemma OthersLeavePusher(c: Config, s: State, st: Step)
    requires Enabled(s, st) && !st.Select? && !st.Ending?
    ensures Apply(c, s, st).p == s.p
  {
  }

  /** What nobody in the extension decides can happen at any time: requests while the server is up, a signal, a
      failing or event-bearing NextEvent, the expiry of a context still alive, a caller leaving its force flush,
      either result of a push. And an answer can always be written, an accepted force flush always be entered into an
      empty queue. */
  lemma EnvironmentIsFree(s: State, h: nat, body: Option<seq<Event>>, req: string, i: nat, k: nat, ok: bool)
    ensures s.serverUp && h !in s.handlers ==> Enabled(s, Http(Arrive(h, body)))
    ensures h in s.handlers && s.handlers[h].Taken? ==> Enabled(s, Http(Answer(h)))
    ensures Enabled(s, Halting(CallStop))
    ensures s.w.Waiting? ==> Enabled(s, Working(NextEventFails))
    ensures s.w.Waiting? && !s.feed.Cancelled? ==>
              Enabled(s, Working(Invocation(req))) && Enabled(s, Halting(ShutdownEvent))
    ensures Current(s.w) == Some(i) && i !in s.dead ==> Enabled(s, Working(Deadline))
    ensures s.w.OfferingForce? || s.w.AwaitingForce? ==> Enabled(s, Working(GiveUpForce))
    ensures s.w.OfferingForce? && s.force.queue.None? ==> Enabled(s, Working(OfferForce))
    ensures s.w.AwaitingForce? && s.w.q in s.force.replies ==> Enabled(s, Working(ReceiveForce))
    ensures s.w.Awaiting? && s.w.inv in s.dead ==> Enabled(s, Working(SeeDeadline))
    ensures s.p.pc.Pushing? ==> Enabled(s, Ending(PushReturn(ok)))
    ensures k < |s.p.flushes| && s.p.flushes[k].Sending? ==> Enabled(s, Ending(FlushReturn(k, ok)))
  {
  }

  /** A run: the states it visits and the steps between them. */
  ghost predicate IsRun(c: Config, ss: seq<State>, steps: seq<Step>) {
    && |ss| == |steps| + 1
    && ss[0] == INIT
    && forall k {:trigger steps[k]} :: 0 <= k < |steps| ==>
         Enabled(ss[k], steps[k]) && ss[k + 1] == Apply(c, ss[k], steps[k])
  }

  /** Every Worker.Invoke ends through its done channel: none takes its ctx.Done branch, though contexts may expire. */
  predicate EndsThroughDone(steps: seq<Step>) {
    forall k :: 0 <= k < |steps| ==> steps[k] != Working(SeeDeadline)
  }

  /** No context expires before the Worker.Invoke it belongs to has returned. */
  predicate NoDeadline(steps: seq<Step>) {
    forall k :: 0 <= k < |steps| ==> steps[k] != Working(Deadline)
  }

  /** The pusher has taken its stop message. */
  predicate StopTaken(pc: Pc) {
    || (pc.Pushing? && pc.job.ForStop?)
    || (pc.SendingDone? && pc.thenStop)
    || pc.SendingStopped?
    || pc.Exited?
  }
}
