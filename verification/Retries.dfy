/** Failed flushes, in every run: hand-back, prepend and the next flush start change nothing but by the overflow cut. */
module Retries {
  import opened Framing
  import opened Overflow
  import opened Telemetry
  import opened PusherState
  import opened Pipeline
  import opened Conservation
  import opened Queue

  /** All bytes in flush goroutines, in order. */
  function Carried(flushes: seq<Flush>): Bytes {
    if |flushes| == 0 then [] else flushes[0].load.bytes + Carried(flushes[1..])
  }

  /** All bytes the pusher has: with its flushes, in a push by the loop, then buffered. */
  function Held(p: Pusher): Bytes {
    Carried(p.flushes) + (if p.pc.Pushing? then p.pc.load.bytes else []) + p.buf.bytes
  }

  predicate Full(f: Flush) {
    |f.load.bytes| > 0
  }

  /** The bytes are in one place: one flush of any number, a push by the loop, or the buffer; a flush is never sent
      empty. */
  predicate OneHolder(p: Pusher) {
    && (forall i, j :: 0 <= i < j < |p.flushes| ==> !Full(p.flushes[i]) || !Full(p.flushes[j]))
    && (forall i :: 0 <= i < |p.flushes| && Full(p.flushes[i]) ==> !p.pc.Pushing? && |p.buf.bytes| == 0)
    && (p.pc.Pushing? ==> |p.buf.bytes| == 0)
    && (forall i :: 0 <= i < |p.flushes| && p.flushes[i].Sending? ==> Full(p.flushes[i]))
  }

  lemma {:induction false} CarriedConcat(a: seq<Flush>, b: seq<Flush>)
    ensures Carried(a + b) == Carried(a) + Carried(b)
  {
    if |a| == 0 {
      assert a + b == b;
    } else {
      assert (a + b)[1..] == a[1..] + b;
      CarriedConcat(a[1..], b);
    }
  }

  lemma {:induction false} CarriedNothing(flushes: seq<Flush>)
    requires forall i :: 0 <= i < |flushes| ==> !Full(flushes[i])
    ensures Carried(flushes) == []
  {
    if |flushes| > 0 {
      CarriedNothing(flushes[1..]);
    }
  }

  lemma CarriedOne(f: Flush)
    ensures Carried([f]) == f.load.bytes
  {
    assert [f][1..] == [];
  }

  lemma Regroup(a: Bytes, x: Bytes, b: Bytes)
    ensures a + (x + b) == a + x + b
  {
  }

  lemma CarriedAt(flushes: seq<Flush>, k: nat, a: seq<Flush>, b: seq<Flush>)
    requires k < |flushes| && a == flushes[..k] && b == flushes[k + 1..]
    ensures Carried(flushes) == Carried(a) + flushes[k].load.bytes + Carried(b)
    ensures Carried(a + b) == Carried(a) + Carried(b)
  {
    var f := [flushes[k]];
    assert flushes == a + (f + b);
    CarriedConcat(a, f + b);
    CarriedConcat(f, b);
    CarriedConcat(a, b);
    CarriedOne(flushes[k]);
    Regroup(Carried(a), Carried(f), Carried(b));
  }

  /** The rest carries nothing beside a full flush. */
  lemma CarriedAlone(flushes: seq<Flush>, k: nat, a: seq<Flush>, b: seq<Flush>)
    requires k < |flushes| && a == flushes[..k] && b == flushes[k + 1..]
    requires forall i :: 0 <= i < |flushes| && i != k ==> !Full(flushes[i])
    ensures Carried(flushes) == flushes[k].load.bytes && Carried(a + b) == []
  {
    CarriedNothing(a);
    CarriedNothing(b);
    CarriedAt(flushes, k, a, b);
  }

  /** No push succeeds, none by the loop returns, and nothing arrives. */
  predicate Fruitless(s: State, st: Step) {
    match st
    case Select(BytesIn) => (s.proc.pc.Emitting? || s.proc.pc.EmittingLast?) && s.proc.pc.bytes == []
    case Ending(PushReturn(_)) => false
    case Ending(FlushReturn(_, ok)) => !ok
    case _ => true
  }

  predicate IsFailure(st: Step) {
    st.Ending? && st.o.FlushReturn?
  }

  lemma StartHolds(p: Pusher)
    requires OneHolder(p) && !p.pc.Pushing? && |p.buf.bytes| > 0
    ensures OneHolder(StartFlush(p)) && Held(StartFlush(p)) == Held(p)
  {
    var f := Sending(p.ctx, p.buf);
    CarriedNothing(p.flushes);
    CarriedConcat(p.flushes, [f]);
    CarriedOne(f);
  }

  lemma ReplyLeavesOne(p: Pusher, k: nat)
    requires OneHolder(p) && p.pc.Selecting? && k < |p.flushes|
    ensures OneHolder(TakeReply(p, k))
  {
    var flushes := TakeReply(p, k).flushes;
    forall i | 0 <= i < |flushes|
      ensures flushes[i] == p.flushes[if i < k then i else i + 1]
    {
    }
  }

  lemma ReplyKeeps(p: Pusher, k: nat, a: seq<Flush>, b: seq<Flush>)
    requires OneHolder(p) && p.pc.Selecting? && k < |p.flushes| && a == p.flushes[..k] && b == p.flushes[k + 1..]
    ensures Carried(a + b) + TakeReply(p, k).buf.bytes == Carried(p.flushes) + p.buf.bytes
  {
    if Full(p.flushes[k]) {
      CarriedAlone(p.flushes, k, a, b);
    } else {
      CarriedAt(p.flushes, k, a, b);
    }
  }

  lemma ReplyHolds(p: Pusher, k: nat)
    requires OneHolder(p) && p.pc.Selecting? && k < |p.flushes|
    ensures OneHolder(TakeReply(p, k)) && Held(TakeReply(p, k)) == Held(p)
  {
    ReplyLeavesOne(p, k);
    ReplyKeeps(p, k, p.flushes[..k], p.flushes[k + 1..]);
    assert Held(p) == Carried(p.flushes) + p.buf.bytes;
    assert Held(TakeReply(p, k)) == Carried(TakeReply(p, k).flushes) + TakeReply(p, k).buf.bytes;
  }

  lemma SignalHolds(c: Config, p: Pusher, contextIsDone: bool)
    requires OneHolder(p) && p.pc.Selecting?
    ensures OneHolder(TakeRuntimeDone(c, p, contextIsDone)) && Held(TakeRuntimeDone(c, p, contextIsDone)) == Held(p)
  {
    if |p.buf.bytes| > 0 {
      StartHolds(p);
    }
  }

  lemma InvokeHolds(c: Config, p: Pusher, inv: nat)
    requires OneHolder(p) && p.pc.Selecting?
    ensures OneHolder(TakeInvoke(c, p, inv)) && Held(TakeInvoke(c, p, inv)) == Held(p)
  {
    if |p.buf.bytes| > 0 {
      StartHolds(p.(ctx := Of(inv), doneC := Some(inv)));
    }
  }

  lemma BufferHolds(c: Config, s: State, b: Branch)
    requires SelectEnabled(s, b) && OneHolder(s.p) && Fruitless(s, Select(b))
    requires b.BytesIn? || b.ContextDone? || b.StopMessage? || b.ForceFlush?
    ensures OneHolder(ApplySelect(c, s, b).p) && Held(ApplySelect(c, s, b).p) == Held(s.p)
  {
    assert ApplySelect(c, s, b).p.flushes == s.p.flushes;
  }

  lemma SelectHolds(c: Config, s: State, b: Branch)
    requires SelectEnabled(s, b) && OneHolder(s.p) && Fruitless(s, Select(b))
    ensures OneHolder(ApplySelect(c, s, b).p) && Held(ApplySelect(c, s, b).p) == Held(s.p)
  {
    match b
    case RuntimeDone => SignalHolds(c, s.p, IsDone(s.p.ctx, s.dead));
    case Invoke => InvokeHolds(c, s.p, s.w.inv);
    case FlushResponse(k) => ReplyHolds(s.p, k);
    case _ => BufferHolds(c, s, b);
  }

  lemma FailureHolds(c: Config, p: Pusher, k: nat)
    requires OneHolder(p) && k < |p.flushes| && p.flushes[k].Sending?
    ensures OneHolder(FlushReturns(c, p, k, false))
    ensures Held(FlushReturns(c, p, k, false)) == Kept(Held(p), c.bufferSize)
  {
    var p' := FlushReturns(c, p, k, false);
    assert Full(p.flushes[k]);
    CarriedAlone(p.flushes, k, p.flushes[..k], p.flushes[k + 1..]);
    CarriedAlone(p'.flushes, k, p'.flushes[..k], p'.flushes[k + 1..]);
    assert Held(p) == p.flushes[k].load.bytes;
    assert Held(p') == p'.flushes[k].load.bytes;
  }

  lemma OutcomeHolds(c: Config, s: State, o: Outcome)
    requires OutcomeEnabled(s, o) && OneHolder(s.p) && Fruitless(s, Ending(o))
    ensures OneHolder(ApplyOutcome(c, s, o).p)
    ensures Held(ApplyOutcome(c, s, o).p) == if o.FlushReturn? then Kept(Held(s.p), c.bufferSize) else Held(s.p)
  {
    match o
    case FlushReturn(k, _) => FailureHolds(c, s.p, k);
    case _ =>
  }

  lemma StepHolds(c: Config, s: State, st: Step)
    requires Enabled(s, st) && OneHolder(s.p) && Fruitless(s, st)
    ensures OneHolder(Apply(c, s, st).p)
    ensures Held(Apply(c, s, st).p) == if IsFailure(st) then Kept(Held(s.p), c.bufferSize) else Held(s.p)
  {
    match st
    case Select(b) => SelectHolds(c, s, b);
    case Ending(o) => OutcomeHolds(c, s, o);
    case _ => OthersLeavePusher(c, s, st);
  }

  /** The failed flushes among the steps from j to k. */
  function Failures(steps: seq<Step>, j: nat, k: nat): nat
    requires j <= k <= |steps|
    decreases k
  {
    if k == j then 0 else Failures(steps, j, k - 1) + (if IsFailure(steps[k - 1]) then 1 else 0)
  }

  predicate FruitlessUpTo(ss: seq<State>, steps: seq<Step>, j: nat, k: nat)
    requires j <= k < |ss| && k <= |steps|
  {
    forall m {:trigger steps[m]} :: j <= m < k ==> Fruitless(ss[m], steps[m])
  }

  lemma FruitlessOneMore(ss: seq<State>, steps: seq<Step>, j: nat, k: nat)
    requires j < k < |ss| && k <= |steps|
    ensures FruitlessUpTo(ss, steps, j, k) <==> FruitlessUpTo(ss, steps, j, k - 1) && Fruitless(ss[k - 1], steps[k - 1])
  {
  }

  lemma {:induction false} OneMoreFailure(payload: Bytes, limit: nat, n: nat)
    ensures AfterFailures(payload, limit, n + 1) == Kept(AfterFailures(payload, limit, n), limit)
    decreases n
  {
    var kept := Kept(payload, limit);
    assert AfterFailures(payload, limit, n + 1) == AfterFailures(kept, limit, n);
    if n == 0 {
      assert AfterFailures(kept, limit, 0) == kept;
    } else {
      OneMoreFailure(kept, limit, n - 1);
      assert AfterFailures(payload, limit, n) == AfterFailures(kept, limit, n - 1);
    }
  }

  lemma OneRetry(payload: Bytes, limit: nat, n: nat, held: Bytes, left: Bytes, failed: bool)
    requires held == AfterFailures(payload, limit, n)
    requires left == if failed then Kept(held, limit) else held
    ensures left == AfterFailures(payload, limit, n + if failed then 1 else 0)
  {
    OneMoreFailure(payload, limit, n);
  }

  lemma {:induction false} RunHolds(c: Config, ss: seq<State>, steps: seq<Step>, j: nat, k: nat)
    requires IsRun(c, ss, steps) && j <= k <= |steps|
    requires OneHolder(ss[j].p) && FruitlessUpTo(ss, steps, j, k)
    ensures OneHolder(ss[k].p)
    decreases k
  {
    if k > j {
      FruitlessOneMore(ss, steps, j, k);
      RunHolds(c, ss, steps, j, k - 1);
      StepHolds(c, ss[k - 1], steps[k - 1]);
    }
  }

  /** What is held after the failures among the steps from j to k. */
  predicate CutDown(c: Config, ss: seq<State>, steps: seq<Step>, j: nat, k: nat, payload: Bytes)
    requires j <= k < |ss| && k <= |steps|
  {
    Held(ss[k].p) == AfterFailures(payload, c.bufferSize, Failures(steps, j, k))
  }

  lemma CutOnce(c: Config, ss: seq<State>, steps: seq<Step>, j: nat, k: nat, payload: Bytes)
    requires IsRun(c, ss, steps) && j < k <= |steps|
    requires OneHolder(ss[k - 1].p) && Fruitless(ss[k - 1], steps[k - 1]) && CutDown(c, ss, steps, j, k - 1, payload)
    ensures CutDown(c, ss, steps, j, k, payload)
  {
    StepHolds(c, ss[k - 1], steps[k - 1]);
    OneRetry(payload, c.bufferSize, Failures(steps, j, k - 1), Held(ss[k - 1].p), Held(ss[k].p),
             IsFailure(steps[k - 1]));
  }

  lemma {:induction false} RunCuts(c: Config, ss: seq<State>, steps: seq<Step>, j: nat, k: nat, payload: Bytes)
    requires IsRun(c, ss, steps) && j <= k <= |steps|
    requires OneHolder(ss[j].p) && Held(ss[j].p) == payload && FruitlessUpTo(ss, steps, j, k)
    ensures CutDown(c, ss, steps, j, k, payload)
    decreases k
  {
    if k > j {
      FruitlessOneMore(ss, steps, j, k);
      RunHolds(c, ss, steps, j, k - 1);
      RunCuts(c, ss, steps, j, k - 1, payload);
      CutOnce(c, ss, steps, j, k, payload);
    }
  }

  /** While nothing arrives and every flush fails, what the pusher holds is what it held, cut once for each failure:
      the hand-back, the prepend to the buffer and the next flush of the whole buffer neither lose, repeat nor
      reorder. */
  lemma RetriesOnlyCut(c: Config, ss: seq<State>, steps: seq<Step>, j: nat, k: nat)
    requires IsRun(c, ss, steps) && j <= k <= |steps|
    requires OneHolder(ss[j].p) && FruitlessUpTo(ss, steps, j, k)
    ensures OneHolder(ss[k].p)
    ensures Held(ss[k].p) == AfterFailures(Held(ss[j].p), c.bufferSize, Failures(steps, j, k))
  {
    RunHolds(c, ss, steps, j, k);
    RunCuts(c, ss, steps, j, k, Held(ss[j].p));
  }

  /** The records the one holder has. */
  function HeldRecs(p: Pusher): seq<Rec> {
    Flat(p.flushes) + JobRecs(p) + p.buf.recs
  }

  lemma FrameThree(f: seq<Rec>, j: seq<Rec>, b: seq<Rec>)
    ensures Frame(Bodies(f + j + b)) == Frame(Bodies(f)) + Frame(Bodies(j)) + Frame(Bodies(b))
  {
    FrameBodies(f + j, b);
    FrameBodies(f, j);
  }

  lemma CleanThree(f: seq<Rec>, j: seq<Rec>, b: seq<Rec>)
    requires AllClean(Bodies(f)) && AllClean(Bodies(j)) && AllClean(Bodies(b))
    ensures AllClean(Bodies(f + j + b))
  {
    assert Bodies(f + j + b) == Bodies(f) + Bodies(j) + Bodies(b);
  }

  lemma {:induction false} CarriedIsFramed(flushes: seq<Flush>)
    requires forall i :: 0 <= i < |flushes| ==> Framed(flushes[i].load)
    ensures Carried(flushes) == Frame(Bodies(Flat(flushes))) && AllClean(Bodies(Flat(flushes)))
  {
    if |flushes| == 0 {
      assert Bodies([]) == [];
    } else {
      CarriedIsFramed(flushes[1..]);
      JoinFramed(flushes[0].load, Chunk(Carried(flushes[1..]), Flat(flushes[1..])));
    }
  }

  lemma HeldIsFramed(p: Pusher)
    requires AllFramed(p)
    ensures Held(p) == Frame(Bodies(HeldRecs(p))) && AllClean(Bodies(HeldRecs(p)))
  {
    CarriedIsFramed(p.flushes);
    assert Frame(Bodies([])) == [];
    FrameThree(Flat(p.flushes), JobRecs(p), p.buf.recs);
    CleanThree(Flat(p.flushes), JobRecs(p), p.buf.recs);
  }

  /** What is left are the latest of the records, each whole. */
  predicate LatestOf(recs: seq<Rec>, left: Bytes) {
    exists i :: 0 <= i <= |recs| && left == Frame(Bodies(recs)[i..])
  }

  lemma HeldConverges(p: Pusher, limit: nat, n: nat, left: Bytes)
    requires AllFramed(p) && n * (limit / 10 + 1) >= |Held(p)| - limit
    requires left == AfterFailures(Held(p), limit, n)
    ensures |left| <= limit
    ensures LatestOf(HeldRecs(p), left)
  {
    HeldIsFramed(p);
    Converges(Bodies(HeldRecs(p)), limit, n);
  }

  lemma RunConverges(c: Config, ss: seq<State>, steps: seq<Step>, j: nat, n: nat, left: Bytes)
    requires c.codec.Sound() && IsRun(c, ss, steps) && j <= |steps|
    requires n * (c.bufferSize / 10 + 1) >= |Held(ss[j].p)| - c.bufferSize
    requires left == AfterFailures(Held(ss[j].p), c.bufferSize, n)
    ensures |left| <= c.bufferSize && LatestOf(HeldRecs(ss[j].p), left)
  {
    RunIsFramed(c, ss, steps, j);
    HeldConverges(ss[j].p, c.bufferSize, n, left);
  }

  /** Retried flushes converge: after at most ceil((L - B) / (B/10 + 1)) failures (written without division) what the
      pusher holds fits the limit B; it is always an unbroken run of its latest records, each whole. */
  lemma RetriesConverge(c: Config, ss: seq<State>, steps: seq<Step>, j: nat, k: nat)
    requires c.codec.Sound() && IsRun(c, ss, steps) && j <= k <= |steps|
    requires OneHolder(ss[j].p) && FruitlessUpTo(ss, steps, j, k)
    requires Failures(steps, j, k) * (c.bufferSize / 10 + 1) >= |Held(ss[j].p)| - c.bufferSize
    ensures |Held(ss[k].p)| <= c.bufferSize
    ensures LatestOf(HeldRecs(ss[j].p), Held(ss[k].p))
  {
    RetriesOnlyCut(c, ss, steps, j, k);
    RunConverges(c, ss, steps, j, Failures(steps, j, k), Held(ss[k].p));
  }

  /** And once it fits it stays: no further failure cuts anything. */
  lemma RetriesSettle(c: Config, ss: seq<State>, steps: seq<Step>, j: nat, k: nat)
    requires IsRun(c, ss, steps) && j <= k <= |steps|
    requires OneHolder(ss[j].p) && FruitlessUpTo(ss, steps, j, k) && |Held(ss[j].p)| <= c.bufferSize
    ensures OneHolder(ss[k].p) && Held(ss[k].p) == Held(ss[j].p)
  {
    RetriesOnlyCut(c, ss, steps, j, k);
    Fits(Held(ss[j].p), c.bufferSize, Failures(steps, j, k));
  }
}
