/** In every run whatsoever - expired deadlines, overlapping flushes, force flushes, stop - no record is lost
    without a name, duplicated or torn. */
module Conservation {
  import opened Framing
  import opened Overflow
  import opened Telemetry
  import opened Batches
  import opened PusherState
  import opened Pipeline

  /** All records in the hands of flush goroutines. */
  function Flat(flushes: seq<Flush>): seq<Rec> {
    if |flushes| == 0 then [] else flushes[0].load.recs + Flat(flushes[1..])
  }

  /** The records the loop itself is pushing. */
  function JobRecs(p: Pusher): seq<Rec> {
    if p.pc.Pushing? then p.pc.load.recs else []
  }

  function Occurrences(recs: seq<Rec>, r: Rec): nat {
    multiset(recs)[r]
  }

  /** How often a record occurs over all the places it can be. */
  function Tally(p: Pusher, r: Rec): nat {
    Occurrences(Recs(p.departed), r) + Occurrences(Flat(p.flushes), r) + Occurrences(JobRecs(p), r)
    + Occurrences(p.buf.recs, r)
  }

  /** The bytes are those of whole clean records. */
  predicate Framed(ch: Chunk) {
    && ch.bytes == Frame(Bodies(ch.recs))
    && AllClean(Bodies(ch.recs))
  }

  predicate AllFramed(p: Pusher) {
    && Framed(p.buf)
    && (p.pc.Pushing? ==> Framed(p.pc.load))
    && forall k :: 0 <= k < |p.flushes| ==> Framed(p.flushes[k].load)
  }

  predicate InArrivalOrder(recs: seq<Rec>) {
    forall i :: 0 <= i < |recs| ==> recs[i].tag == i
  }

  ghost predicate Balanced(p: Pusher) {
    InArrivalOrder(p.received) && forall r :: Tally(p, r) == Occurrences(p.received, r)
  }

  /** What the processor is about to hand over is framed too. */
  predicate OutputFramed(pc: ProcPc) {
    && (pc.Emitting? ==> pc.bytes == Frame(pc.bodies) && AllClean(pc.bodies))
    && (pc.EmittingLast? ==> pc.bytes == [])
  }

  lemma {:induction false} FlatConcat(a: seq<Flush>, b: seq<Flush>)
    ensures Flat(a + b) == Flat(a) + Flat(b)
  {
    if |a| == 0 {
      assert a + b == b;
    } else {
      assert (a + b)[1..] == a[1..] + b;
      FlatConcat(a[1..], b);
    }
  }

  lemma FlatOne(f: Flush)
    ensures Flat([f]) == f.load.recs
  {
    assert Flat([f][1..]) == [];
  }

  lemma FlatAt(flushes: seq<Flush>, k: nat, f: Flush)
    requires k < |flushes|
    ensures Flat(flushes) == Flat(flushes[..k]) + flushes[k].load.recs + Flat(flushes[k + 1..])
    ensures Flat(flushes[k := f]) == Flat(flushes[..k]) + f.load.recs + Flat(flushes[k + 1..])
    ensures Flat(flushes[..k] + flushes[k + 1..]) == Flat(flushes[..k]) + Flat(flushes[k + 1..])
  {
    var a, b := flushes[..k], flushes[k + 1..];
    assert flushes == a + ([flushes[k]] + b);
    assert flushes[k := f] == a + ([f] + b);
    FlatConcat(a, [flushes[k]] + b);
    FlatConcat([flushes[k]], b);
    FlatConcat(a, [f] + b);
    FlatConcat([f], b);
    FlatConcat(a, b);
    FlatOne(flushes[k]);
    FlatOne(f);
  }

  lemma JoinFramed(a: Chunk, b: Chunk)
    requires Framed(a) && Framed(b)
    ensures Framed(Join(a, b))
  {
    assert Bodies(a.recs + b.recs) == Bodies(a.recs) + Bodies(b.recs);
    FrameConcat(Bodies(a.recs), Bodies(b.recs));
  }

  /** The overflow cut parts a framed payload between two records. */
  lemma PartsFramed(load: Chunk, k: nat, c: nat)
    requires Framed(load) && k <= |load.bytes| && c <= |load.recs|
    requires load.bytes[..k] == Frame(Bodies(load.recs)[..c]) && load.bytes[k..] == Frame(Bodies(load.recs)[c..])
    ensures Framed(Chunk(load.bytes[..k], load.recs[..c])) && Framed(Chunk(load.bytes[k..], load.recs[c..]))
  {
    assert Bodies(load.recs[..c]) == Bodies(load.recs)[..c];
    assert Bodies(load.recs[c..]) == Bodies(load.recs)[c..];
  }

  lemma CutFramed(load: Chunk, limit: nat)
    requires Framed(load)
    ensures Framed(Retained(load, limit)) && Framed(Dropped(load, limit))
    ensures load.recs == Dropped(load, limit).recs + Retained(load, limit).recs
    ensures load.bytes == Dropped(load, limit).bytes + Retained(load, limit).bytes
  {
    var bodies, k := Bodies(load.recs), CutIndex(load.bytes, limit);
    CutIsWholeRecords(bodies, limit);
    if |load.bytes| <= limit {
      assert bodies[..0] == [] && bodies[0..] == bodies;
      assert load.bytes[..0] == [] && load.bytes[0..] == load.bytes;
      PartsFramed(load, 0, 0);
    } else {
      PartsFramed(load, k, CutCount(bodies, limit / 10));
    }
  }

  lemma EmptyIffNoRecords(ch: Chunk)
    requires Framed(ch)
    ensures |ch.bytes| == 0 <==> |ch.recs| == 0
  {
    FrameEmpty(Bodies(ch.recs));
  }

  lemma EmptyFramed()
    ensures Framed(EMPTY)
  {
    assert Bodies([]) == [];
  }

  lemma Concat(a: seq<Rec>, b: seq<Rec>, r: Rec)
    ensures Occurrences(a + b, r) == Occurrences(a, r) + Occurrences(b, r)
  {
  }

  lemma RecsOfDepart(ds: seq<Departure>, recs: seq<Rec>, fate: Fate, r: Rec)
    ensures Occurrences(Recs(ds + Depart(recs, fate)), r) == Occurrences(Recs(ds), r) + Occurrences(recs, r)
  {
    assert Recs(ds + Depart(recs, fate)) == Recs(ds) + recs;
  }

  lemma FlatTally(flushes: seq<Flush>, k: nat, f: Flush, r: Rec)
    requires k < |flushes|
    ensures Occurrences(Flat(flushes[k := f]), r) + Occurrences(flushes[k].load.recs, r)
            == Occurrences(Flat(flushes), r) + Occurrences(f.load.recs, r)
    ensures Occurrences(Flat(flushes[..k] + flushes[k + 1..]), r) + Occurrences(flushes[k].load.recs, r)
            == Occurrences(Flat(flushes), r)
  {
    FlatAt(flushes, k, f);
    var a, b := Flat(flushes[..k]), Flat(flushes[k + 1..]);
    Concat(a + flushes[k].load.recs, b, r);
    Concat(a, flushes[k].load.recs, r);
    Concat(a + f.load.recs, b, r);
    Concat(a, f.load.recs, r);
    Concat(a, b, r);
  }

  lemma ReceiveTally(p: Pusher, bytes: Bytes, bodies: seq<Bytes>, r: Rec)
    ensures var recs := Numbered(bodies, |p.received|);
            && Tally(Receive(p, bytes, bodies), r) == Tally(p, r) + Occurrences(recs, r)
            && Occurrences(Receive(p, bytes, bodies).received, r) == Occurrences(p.received, r) + Occurrences(recs, r)
  {
    var recs := Numbered(bodies, |p.received|);
    Concat(p.buf.recs, recs, r);
    Concat(p.received, recs, r);
  }

  lemma StartFlushTally(p: Pusher, r: Rec)
    ensures Tally(StartFlush(p), r) == Tally(p, r)
  {
    var f := Sending(p.ctx, p.buf);
    FlatConcat(p.flushes, [f]);
    FlatOne(f);
    Concat(Flat(p.flushes), p.buf.recs, r);
  }

  lemma StartPushTally(p: Pusher, job: Job, r: Rec)
    requires !p.pc.Pushing?
    ensures Tally(StartPush(p, job), r) == Tally(p, r)
  {
  }

  lemma PushReturnsTally(p: Pusher, ok: bool, r: Rec)
    requires p.pc.Pushing?
    ensures Tally(PushReturns(p, ok), r) == Tally(p, r) && PushReturns(p, ok).received == p.received
  {
    var p', fate := PushReturns(p, ok), if ok then Delivered else LostToFailedPush;
    assert p'.departed == p.departed + Depart(p.pc.load.recs, fate);
    assert p'.flushes == p.flushes && p'.buf == p.buf && JobRecs(p') == [];
    RecsOfDepart(p.departed, p.pc.load.recs, fate, r);
  }

  /** Records that leave flush k for the departures stay on the books. */
  lemma LeaveTally(p: Pusher, p': Pusher, k: nat, gone: seq<Rec>, fate: Fate, r: Rec)
    requires k < |p.flushes| == |p'.flushes|
    requires p' == p.(flushes := p.flushes[k := p'.flushes[k]], departed := p.departed + Depart(gone, fate))
    requires p.flushes[k].load.recs == gone + p'.flushes[k].load.recs
    ensures Tally(p', r) == Tally(p, r)
  {
    FlatTally(p.flushes, k, p'.flushes[k], r);
    RecsOfDepart(p.departed, gone, fate, r);
    Concat(gone, p'.flushes[k].load.recs, r);
    assert JobRecs(p') == JobRecs(p);
  }

  lemma FlushReturnsTally(c: Config, p: Pusher, k: nat, ok: bool, r: Rec)
    requires k < |p.flushes| && Framed(p.flushes[k].load)
    ensures Tally(FlushReturns(c, p, k, ok), r) == Tally(p, r)
  {
    var p', load := FlushReturns(c, p, k, ok), p.flushes[k].load;
    if ok {
      assert load.recs + [] == load.recs;
      LeaveTally(p, p', k, load.recs, Delivered, r);
    } else {
      CutFramed(load, c.bufferSize);
      LeaveTally(p, p', k, Dropped(load, c.bufferSize).recs, LostToOverflow, r);
    }
  }

  lemma TakeReplyTally(p: Pusher, k: nat, r: Rec)
    requires k < |p.flushes| && Framed(p.flushes[k].load) && !p.pc.Pushing?
    ensures Tally(TakeReply(p, k), r) == Tally(p, r)
  {
    var load := p.flushes[k].load;
    EmptyIffNoRecords(load);
    FlatTally(p.flushes, k, p.flushes[k], r);
    Concat(load.recs, p.buf.recs, r);
  }

  /** A change of the pusher keeps the books: what it adds to the places it adds to what was received. */
  predicate KeepsBooks(p: Pusher, p': Pusher, r: Rec) {
    Tally(p', r) - Occurrences(p'.received, r) == Tally(p, r) - Occurrences(p.received, r)
  }

  lemma SignalTally(c: Config, p: Pusher, contextIsDone: bool, r: Rec)
    requires p.pc.Selecting?
    ensures KeepsBooks(p, TakeRuntimeDone(c, p, contextIsDone), r)
  {
    StartPushTally(p, ForRuntimeDone, r);
    StartFlushTally(p, r);
  }

  lemma StartTally(c: Config, s: State, b: Branch, r: Rec)
    requires SelectEnabled(s, b) && (b.RuntimeDone? || b.ContextDone? || b.StopMessage? || b.ForceFlush?)
    ensures KeepsBooks(s.p, ApplySelect(c, s, b).p, r)
  {
    match b
    case RuntimeDone => SignalTally(c, s.p, IsDone(s.p.ctx, s.dead), r);
    case ContextDone => StartPushTally(s.p, ForContextDone, r);
    case StopMessage => StartPushTally(s.p, ForStop, r);
    case ForceFlush => StartPushTally(s.p, ForForce(s.force.queue.value), r);
  }

  lemma SelectTally(c: Config, s: State, b: Branch, r: Rec)
    requires SelectEnabled(s, b)
    requires b.FlushResponse? ==> Framed(s.p.flushes[b.k].load)
    ensures KeepsBooks(s.p, ApplySelect(c, s, b).p, r)
  {
    match b
    case BytesIn => ReceiveTally(s.p, s.proc.pc.bytes, if s.proc.pc.Emitting? then s.proc.pc.bodies else [], r);
    case Invoke => StartFlushTally(s.p.(ctx := Of(s.w.inv), doneC := Some(s.w.inv)), r);
    case FlushResponse(k) => TakeReplyTally(s.p, k, r);
    case _ => StartTally(c, s, b, r);
  }

  lemma OutcomeTally(c: Config, s: State, o: Outcome, r: Rec)
    requires OutcomeEnabled(s, o)
    requires o.FlushReturn? ==> Framed(s.p.flushes[o.k].load)
    ensures KeepsBooks(s.p, ApplyOutcome(c, s, o).p, r)
  {
    match o
    case PushReturn(ok) =>
      assert ApplyOutcome(c, s, o).p == PushReturns(s.p, ok);
      PushReturnsTally(s.p, ok, r);
    case FlushReturn(k, ok) => FlushReturnsTally(c, s.p, k, ok, r);
    case DoneTaken => assert JobRecs(ApplyOutcome(c, s, o).p) == JobRecs(s.p);
    case StoppedTaken => assert JobRecs(ApplyOutcome(c, s, o).p) == JobRecs(s.p);
  }

  lemma StepTally(c: Config, s: State, st: Step, r: Rec)
    requires Enabled(s, st) && AllFramed(s.p)
    ensures KeepsBooks(s.p, Apply(c, s, st).p, r)
  {
    match st
    case Select(b) => SelectTally(c, s, b, r);
    case Ending(o) => OutcomeTally(c, s, o, r);
    case _ => OthersLeavePusher(c, s, st);
  }

  lemma SelectKeepsOrder(c: Config, s: State, b: Branch)
    requires SelectEnabled(s, b) && InArrivalOrder(s.p.received)
    ensures InArrivalOrder(ApplySelect(c, s, b).p.received)
  {
  }

  lemma OutcomeKeepsOrder(c: Config, s: State, o: Outcome)
    requires OutcomeEnabled(s, o)
    ensures ApplyOutcome(c, s, o).p.received == s.p.received
  {
  }

  lemma StepBalances(c: Config, s: State, st: Step)
    requires Enabled(s, st) && AllFramed(s.p) && Balanced(s.p)
    ensures Balanced(Apply(c, s, st).p)
  {
    var p' := Apply(c, s, st).p;
    assert InArrivalOrder(p'.received) by {
      match st
      case Select(b) => SelectKeepsOrder(c, s, b);
      case Ending(o) => OutcomeKeepsOrder(c, s, o);
      case _ => OthersLeavePusher(c, s, st);
    }
    forall r
      ensures Tally(p', r) == Occurrences(p'.received, r)
    {
      StepTally(c, s, st, r);
    }
  }

  lemma ReceiveFramed(p: Pusher, bytes: Bytes, bodies: seq<Bytes>)
    requires AllFramed(p) && bytes == Frame(bodies) && AllClean(bodies)
    ensures AllFramed(Receive(p, bytes, bodies))
  {
    var recs := Numbered(bodies, |p.received|);
    assert Bodies(recs) == bodies;
    JoinFramed(p.buf, Chunk(bytes, recs));
  }

  lemma StartFlushFramed(p: Pusher)
    requires AllFramed(p)
    ensures AllFramed(StartFlush(p))
  {
    EmptyFramed();
  }

  lemma StartPushFramed(p: Pusher, job: Job)
    requires AllFramed(p)
    ensures AllFramed(StartPush(p, job))
  {
    EmptyFramed();
  }

  lemma TakeReplyFramed(p: Pusher, k: nat)
    requires AllFramed(p) && k < |p.flushes| && p.pc.Selecting?
    ensures AllFramed(TakeReply(p, k))
  {
    JoinFramed(p.flushes[k].load, p.buf);
  }

  lemma FlushReturnsFramed(c: Config, p: Pusher, k: nat, ok: bool)
    requires AllFramed(p) && k < |p.flushes|
    ensures AllFramed(FlushReturns(c, p, k, ok))
  {
    EmptyFramed();
    CutFramed(p.flushes[k].load, c.bufferSize);
  }

  lemma SelectKeepsFramed(c: Config, s: State, b: Branch)
    requires SelectEnabled(s, b) && AllFramed(s.p) && OutputFramed(s.proc.pc)
    ensures AllFramed(ApplySelect(c, s, b).p)
  {
    match b
    case BytesIn => ReceiveFramed(s.p, s.proc.pc.bytes, if s.proc.pc.Emitting? then s.proc.pc.bodies else []);
    case RuntimeDone =>
      StartFlushFramed(s.p);
      StartPushFramed(s.p, ForRuntimeDone);
    case ContextDone => StartPushFramed(s.p, ForContextDone);
    case Invoke => StartFlushFramed(s.p.(ctx := Of(s.w.inv), doneC := Some(s.w.inv)));
    case FlushResponse(k) => TakeReplyFramed(s.p, k);
    case StopMessage => StartPushFramed(s.p, ForStop);
    case ForceFlush => StartPushFramed(s.p, ForForce(s.force.queue.value));
  }

  lemma OutcomeKeepsFramed(c: Config, s: State, o: Outcome)
    requires OutcomeEnabled(s, o) && AllFramed(s.p)
    ensures AllFramed(ApplyOutcome(c, s, o).p)
  {
    if o.FlushReturn? {
      FlushReturnsFramed(c, s.p, o.k, o.ok);
    }
  }

  lemma SelectKeepsOutput(c: Config, s: State, b: Branch)
    requires SelectEnabled(s, b) && OutputFramed(s.proc.pc)
    ensures OutputFramed(ApplySelect(c, s, b).proc.pc)
  {
  }

  lemma OthersKeepOutput(c: Config, s: State, st: Step)
    requires c.codec.Sound() && Enabled(s, st) && !st.Select? && OutputFramed(s.proc.pc)
    ensures OutputFramed(Apply(c, s, st).proc.pc)
  {
    if st.Http? && st.i.Accept? {
      ProcessWritesClean(c.codec, s.proc.reqId, s.proc.table, s.handlers[st.i.h].events);
    }
  }

  /** Every step keeps every payload framed: appending, prepending what failed, and cutting. */
  lemma StepKeepsFramed(c: Config, s: State, st: Step)
    requires c.codec.Sound() && Enabled(s, st)
    requires AllFramed(s.p) && OutputFramed(s.proc.pc)
    ensures AllFramed(Apply(c, s, st).p) && OutputFramed(Apply(c, s, st).proc.pc)
  {
    match st
    case Select(b) =>
      SelectKeepsFramed(c, s, b);
      SelectKeepsOutput(c, s, b);
    case Ending(o) =>
      OutcomeKeepsFramed(c, s, o);
      OthersKeepOutput(c, s, st);
    case _ =>
      OthersLeavePusher(c, s, st);
      OthersKeepOutput(c, s, st);
  }

  lemma {:induction false} RunIsSound(c: Config, ss: seq<State>, steps: seq<Step>, k: nat)
    requires c.codec.Sound() && IsRun(c, ss, steps) && k <= |steps|
    ensures Balanced(ss[k].p) && AllFramed(ss[k].p) && OutputFramed(ss[k].proc.pc)
  {
    if k == 0 {
      EmptyFramed();
    } else {
      RunIsSound(c, ss, steps, k - 1);
      StepBalances(c, ss[k - 1], steps[k - 1]);
      StepKeepsFramed(c, ss[k - 1], steps[k - 1]);
    }
  }

  lemma RunIsFramed(c: Config, ss: seq<State>, steps: seq<Step>, k: nat)
    requires c.codec.Sound() && IsRun(c, ss, steps) && k <= |steps|
    ensures AllFramed(ss[k].p)
  {
    RunIsSound(c, ss, steps, k);
  }

  lemma {:induction false} CountInArrivalOrder(recs: seq<Rec>, r: Rec)
    requires InArrivalOrder(recs)
    ensures multiset(recs)[r] == if r in recs then 1 else 0
  {
    if |recs| > 0 {
      var n := |recs| - 1;
      CountInArrivalOrder(recs[..n], r);
      assert recs == recs[..n] + [recs[n]];
    }
  }

  /** How many of the departures of r are of the given fate. */
  function Departures(ds: seq<Departure>, r: Rec, fate: Fate): nat {
    multiset(ds)[Departure(r, fate)]
  }

  lemma {:induction false} DeparturesSplit(ds: seq<Departure>, r: Rec)
    ensures multiset(Recs(ds))[r] ==
            Departures(ds, r, Delivered) + Departures(ds, r, LostToOverflow) + Departures(ds, r, LostToFailedPush)
  {
    if |ds| > 0 {
      var n := |ds| - 1;
      DeparturesSplit(ds[..n], r);
      assert ds == ds[..n] + [ds[n]];
      assert Recs(ds) == Recs(ds[..n]) + [ds[n].rec];
      match ds[n].fate
      case Delivered =>
      case LostToOverflow =>
      case LostToFailedPush =>
    }
  }

  /** Conservation: at every point of every run each received record is in exactly one place, exactly once - the
      buffer, one flush, one push by the loop, one successful delivery, or one named loss - and no other record
      is anywhere. */
  lemma EachRecordInOnePlace(c: Config, ss: seq<State>, steps: seq<Step>, k: nat, r: Rec)
    requires c.codec.Sound() && IsRun(c, ss, steps) && k <= |steps|
    ensures var p := ss[k].p;
            multiset(p.buf.recs)[r] + multiset(Flat(p.flushes))[r] + multiset(JobRecs(p))[r]
            + Departures(p.departed, r, Delivered) + Departures(p.departed, r, LostToOverflow)
            + Departures(p.departed, r, LostToFailedPush)
            == if r in p.received then 1 else 0
  {
    RunIsSound(c, ss, steps, k);
    var p := ss[k].p;
    CountInArrivalOrder(p.received, r);
    DeparturesSplit(p.departed, r);
    assert Tally(p, r) == Occurrences(p.received, r);
  }

  lemma {:induction false} OnceInFlat(fs: seq<Flush>, j: nat, r: Rec)
    requires j < |fs| && r in fs[j].load.recs
    ensures Occurrences(Flat(fs), r) >= 1
  {
    Concat(fs[0].load.recs, Flat(fs[1..]), r);
    if j > 0 {
      OnceInFlat(fs[1..], j - 1, r);
    }
  }

  lemma {:induction false} TwiceInFlat(fs: seq<Flush>, i: nat, j: nat, r: Rec)
    requires i < j < |fs| && r in fs[i].load.recs && r in fs[j].load.recs
    ensures Occurrences(Flat(fs), r) >= 2
  {
    Concat(fs[0].load.recs, Flat(fs[1..]), r);
    if i == 0 {
      OnceInFlat(fs[1..], j - 1, r);
    } else {
      TwiceInFlat(fs[1..], i - 1, j - 1, r);
    }
  }

  /** Among the flush goroutines, too, a record is with one only. */
  lemma OneFlushHoldsIt(c: Config, ss: seq<State>, steps: seq<Step>, k: nat, i: nat, j: nat, r: Rec)
    requires c.codec.Sound() && IsRun(c, ss, steps) && k <= |steps|
    requires i < j < |ss[k].p.flushes|
    requires r in ss[k].p.flushes[i].load.recs
    ensures r !in ss[k].p.flushes[j].load.recs
  {
    EachRecordInOnePlace(c, ss, steps, k, r);
    if r in ss[k].p.flushes[j].load.recs {
      TwiceInFlat(ss[k].p.flushes, i, j, r);
    }
  }

  /** The records in a payload were received, unchanged. */
  lemma PayloadWasReceived(c: Config, ss: seq<State>, steps: seq<Step>, k: nat, ch: Chunk)
    requires c.codec.Sound() && IsRun(c, ss, steps) && k <= |steps|
    requires Carries(ss[k].p, ch)
    ensures forall r :: r in ch.recs ==> r in ss[k].p.received
  {
    forall r | r in ch.recs
      ensures r in ss[k].p.received
    {
      EachRecordInOnePlace(c, ss, steps, k, r);
      var p := ss[k].p;
      if i: nat :| i < |p.flushes| && p.flushes[i].load == ch {
        FlatAt(p.flushes, i, p.flushes[i]);
        assert r in Flat(p.flushes);
      }
    }
  }

  /** ch is the buffer, the payload of a push by the loop, or the payload of a flush. */
  predicate Carries(p: Pusher, ch: Chunk) {
    || ch == p.buf
    || (p.pc.Pushing? && ch == p.pc.load)
    || exists i: nat :: i < |p.flushes| && p.flushes[i].load == ch
  }

  /** Record framing: in every reachable state the buffer and every payload - whatever appends, prepends of failed
      payloads and overflow cuts made it - is the concatenation of whole received records, and splitting it on the
      separator gives back exactly those. */
  lemma PayloadsAreWholeRecords(c: Config, ss: seq<State>, steps: seq<Step>, k: nat, ch: Chunk)
    requires c.codec.Sound() && IsRun(c, ss, steps) && k <= |steps|
    requires Carries(ss[k].p, ch)
    ensures ch.bytes == Frame(Bodies(ch.recs))
    ensures Split(ch.bytes) == Bodies(ch.recs)
    ensures forall r :: r in ch.recs ==> r in ss[k].p.received && Clean(r.body)
  {
    RunIsSound(c, ss, steps, k);
    PayloadWasReceived(c, ss, steps, k, ch);
    SplitOfFrame(Bodies(ch.recs));
    forall r | r in ch.recs
      ensures Clean(r.body)
    {
      var i :| 0 <= i < |ch.recs| && ch.recs[i] == r;
      assert Bodies(ch.recs)[i] == r.body;
    }
  }
}
