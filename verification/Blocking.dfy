/** Who waits for whom. In every run a blocked component's waiting chain has an enabled step, unless pusher, worker and
    processor wait in a circle or the pusher is lost. */
module Blocking {
  import opened PusherState
  import opened Pipeline
  import opened Regime
  import opened DoneChannel

  datatype Component = TheProcessor | TheWorker | ThePusher | AFlush(k: nat) | AHandler(h: nat)

  /** Blocked inside a handler: on bufferC, runtimeDoneC, either invokeC, doneC, flushRespC or logC. */
  predicate Blocked(s: State, x: Component) {
    match x
    case TheProcessor => s.proc.pc.Emitting? || s.proc.pc.Signalling?
    case TheWorker => s.w.ToPusher? || s.w.ToProcessor?
    case ThePusher => s.p.pc.SendingDone?
    case AFlush(k) => k < |s.p.flushes| && s.p.flushes[k].Replying?
    case AHandler(h) => h in s.handlers && s.handlers[h].Offering?
  }

  /** What must happen for the pusher to select again. */
  function PusherTurn(s: State): Step {
    if s.p.pc.Pushing? then Ending(PushReturn(true))
    else if s.w.Awaiting? then Ending(DoneTaken)
    else Working(InvokeProcessor)
  }

  function ProcessorTurn(s: State): Step {
    if !s.p.pc.Selecting? then PusherTurn(s)
    else if s.proc.pc.Signalling? then Select(RuntimeDone)
    else Select(BytesIn)
  }

  /** The next step of the chain x waits on. */
  function ChainStep(s: State, x: Component): Step {
    match x
    case TheProcessor => ProcessorTurn(s)
    case TheWorker =>
      if s.w.ToPusher? then (if s.p.pc.Selecting? then Select(Invoke) else PusherTurn(s))
      else if s.proc.pc.Idle? then Working(InvokeProcessor)
      else ProcessorTurn(s)
    case ThePusher => PusherTurn(s)
    case AFlush(k) => if s.p.pc.Selecting? then Select(FlushResponse(k)) else PusherTurn(s)
    case AHandler(h) => if s.proc.pc.Idle? then Http(Accept(h)) else ProcessorTurn(s)
  }

  /** How many steps of a chain can still be ahead. */
  function Rank(s: State): nat {
    (match s.p.pc
     case Selecting => 0
     case Pushing(_, _) => 1
     case _ => if s.w.Awaiting? then 1 else 2)
    + (if s.w.ToPusher? then 4 else if s.w.ToProcessor? then 1 else 0)
    + (match s.proc.pc
       case Emitting(_, _, runtimeDone) => if runtimeDone then 3 else 1
       case Signalling => 2
       case _ => 0)
  }

  /** The pusher offers done to a worker that waits for the processor, which waits for the pusher. */
  predicate CyclicWait(s: State) {
    && s.p.pc.SendingDone?
    && s.p.doneC.Some?
    && s.w.ToProcessor?
    && (s.proc.pc.Emitting? || s.proc.pc.Signalling?)
  }

  /** The processor has not been told to stop. */
  predicate Serving(pc: ProcPc) {
    pc.Idle? || pc.Emitting? || pc.Signalling?
  }

  /** The chain waits for a pusher that will not select again. */
  predicate PusherStuck(s: State) {
    CyclicWait(s) || Lost(s)
  }

  /** x waits for the pusher, directly or through the processor. */
  predicate NeedsPusher(s: State, x: Component) {
    match x
    case TheWorker => s.w.ToPusher? || !s.proc.pc.Idle?
    case AHandler(_) => !s.proc.pc.Idle?
    case _ => true
  }

  lemma ChainCanMove(c: Config, s: State, x: Component)
    requires StopOrder(s) && Attached(s) && Serving(s.proc.pc) && Blocked(s, x)
    ensures Enabled(s, ChainStep(s, x)) <==> !(NeedsPusher(s, x) && PusherStuck(s))
  {
  }

  /** The step of x's chain is enabled, and releases x or shortens the chain. */
  predicate Serves(c: Config, s: State, x: Component) {
    && Enabled(s, ChainStep(s, x))
    && (|| Rank(Apply(c, s, ChainStep(s, x))) < Rank(s)
        || !Blocked(Apply(c, s, ChainStep(s, x)), x)
        || (x.AFlush? && ChainStep(s, x) == Select(FlushResponse(x.k))))
  }

  lemma SelectingServes(c: Config, s: State, x: Component)
    requires StopOrder(s) && Attached(s) && Serving(s.proc.pc) && Blocked(s, x) && s.p.pc.Selecting?
    ensures Serves(c, s, x)
  {
  }

  lemma BusyServes(c: Config, s: State, x: Component)
    requires StopOrder(s) && Attached(s) && Serving(s.proc.pc) && Blocked(s, x) && !s.p.pc.Selecting?
    requires !(NeedsPusher(s, x) && PusherStuck(s))
    ensures Serves(c, s, x)
  {
    if s.p.pc.Pushing? {
      PushReturnMoves(s, true);
    }
  }

  /** The chain is stuck exactly when it needs a pusher that is stuck; otherwise its step serves x or brings it
      nearer. */
  lemma ChainMovesUnlessStuck(c: Config, s: State, x: Component)
    requires StopOrder(s) && Attached(s) && Serving(s.proc.pc) && Blocked(s, x)
    ensures if NeedsPusher(s, x) && PusherStuck(s) then !Enabled(s, ChainStep(s, x))
            else Serves(c, s, x) && Rank(s) <= 8
  {
    ChainCanMove(c, s, x);
    if s.p.pc.Selecting? {
      SelectingServes(c, s, x);
    } else if !(NeedsPusher(s, x) && PusherStuck(s)) {
      BusyServes(c, s, x);
    }
  }

  /** The cyclic wait is for ever: no step whatsoever, not even an expired deadline, ends it. */
  lemma CyclicWaitIsPermanent(c: Config, s: State, st: Step)
    requires CyclicWait(s) && Enabled(s, st)
    ensures CyclicWait(Apply(c, s, st))
  {
  }

  /** The three ways into the cyclic wait: an invocation finds the buffer empty in flush-at-next-invoke mode while the
      processor has something for the pusher; a flush response comes while the worker waits for a processor that has; or
      the processor accepts a batch while the pusher offers done to a worker that waits for the processor. */
  predicate EntersCircle(c: Config, s: State, st: Step) {
    match st
    case Select(Invoke) =>
      c.flushAtNextInvoke && |s.p.buf.bytes| == 0 && (s.proc.pc.Emitting? || s.proc.pc.Signalling?)
    case Select(FlushResponse(_)) =>
      s.p.doneC.Some? && s.w.ToProcessor? && (s.proc.pc.Emitting? || s.proc.pc.Signalling?)
    case Http(Accept(_)) =>
      s.p.pc.SendingDone? && s.p.doneC.Some? && s.w.ToProcessor?
    case _ => false
  }

  lemma CircleEnteredExactlyBy(c: Config, s: State, st: Step)
    requires Enabled(s, st) && StopOrder(s) && !CyclicWait(s)
    ensures CyclicWait(Apply(c, s, st)) <==> EntersCircle(c, s, st)
  {
  }

  /** In every run whatsoever, the cyclic wait begins exactly with one of the three entries. */
  lemma CircleBeginsExactlyWhen(c: Config, ss: seq<State>, steps: seq<Step>, k: nat)
    requires IsRun(c, ss, steps) && k < |steps| && !CyclicWait(ss[k])
    ensures CyclicWait(ss[k + 1]) <==> EntersCircle(c, ss[k], steps[k])
  {
    RunStopsInOrder(c, ss, steps, k);
    CircleEnteredExactlyBy(c, ss[k], steps[k]);
  }

  /** In every run, in either mode, expired contexts included: until the processor is told to stop, a blocked
      component's waiting chain has an enabled step unless it needs a pusher that is in the circle or lost; at most
      eight such steps serve it. */
  lemma StuckExactlyWhen(c: Config, ss: seq<State>, steps: seq<Step>, k: nat, x: Component)
    requires IsRun(c, ss, steps) && k <= |steps| && Serving(ss[k].proc.pc) && Blocked(ss[k], x)
    ensures if NeedsPusher(ss[k], x) && (CyclicWait(ss[k]) || Lost(ss[k])) then !Enabled(ss[k], ChainStep(ss[k], x))
            else Serves(c, ss[k], x) && Rank(ss[k]) <= 8
  {
    RunStopsInOrder(c, ss, steps, k);
    RunIsAttached(c, ss, steps, k);
    ChainMovesUnlessStuck(c, ss[k], x);
  }

  /** No cyclic blocking: without flush-at-next-invoke, in every run whose Invokes end through done, neither the
      circle nor a lost pusher is ever there, so every blocked component's chain has an enabled step. */
  lemma NoCyclicBlocking(c: Config, ss: seq<State>, steps: seq<Step>, k: nat, x: Component)
    requires IsRun(c, ss, steps) && EndsThroughDone(steps) && k <= |steps|
    requires !c.flushAtNextInvoke && Serving(ss[k].proc.pc) && Blocked(ss[k], x)
    ensures !CyclicWait(ss[k]) && !Lost(ss[k])
    ensures Enabled(ss[k], ChainStep(ss[k], x))
    ensures var s' := Apply(c, ss[k], ChainStep(ss[k], x));
            Rank(s') < Rank(ss[k]) <= 8 || !Blocked(s', x)
  {
    RunIsPaired(c, ss, steps, k);
    DoneRunsNeverLose(c, ss, steps, k);
    StuckExactlyWhen(c, ss, steps, k, x);
  }
}
