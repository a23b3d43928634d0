/** When a flush starts, what becomes of each payload, and how often the context-done branch fires - in every run. */
module Deliveries {
  import opened Framing
  import opened Overflow
  import opened PusherState
  import opened Pipeline
  import opened Conservation
  import opened Regime
  import opened Queue

  /** The step starts a flush: with flush-at-next-invoke the pusher takes an invocation, else a runtime-done signal
      under a live context; the buffer is not empty. */
  predicate StartsFlush(c: Config, s: State, st: Step) {
    && |s.p.buf.bytes| > 0
    && if c.flushAtNextInvoke then st == Select(Invoke) else st == Select(RuntimeDone) && !IsDone(s.p.ctx, s.dead)
  }

  /** Flushes start exactly then, one at a time, with the whole buffer as payload, under the context of the moment. */
  lemma FlushStartsExactlyWhen(c: Config, s: State, st: Step)
    requires Enabled(s, st)
    ensures |Apply(c, s, st).p.flushes| > |s.p.flushes| <==> StartsFlush(c, s, st)
    ensures StartsFlush(c, s, st) ==>
              var p' := Apply(c, s, st).p;
              p'.flushes == s.p.flushes + [Sending(p'.ctx, s.p.buf)] && p'.buf == EMPTY
  {
    if !st.Select? && !st.Ending? {
      OthersLeavePusher(c, s, st);
    }
  }

  /** A runtime-done signal the pusher has nothing to do for - in flush-at-next-invoke mode, or with an empty buffer -
      leaves it alone; under a done context the loop pushes the buffer itself. */
  lemma SignalOtherwise(c: Config, s: State)
    requires Enabled(s, Select(RuntimeDone)) && !StartsFlush(c, s, Select(RuntimeDone))
    ensures var p' := Apply(c, s, Select(RuntimeDone)).p;
            if c.flushAtNextInvoke || |s.p.buf.bytes| == 0 then p' == s.p
            else
              && IsDone(s.p.ctx, s.dead) && p'.pc.Pushing? && p'.pc.load == s.p.buf && p'.buf == EMPTY
              && p' == s.p.(pc := p'.pc, buf := p'.buf)
  {
  }

  /** The departures a step adds. */
  function Added(p: Pusher, p': Pusher): seq<Departure>
    requires |p.departed| <= |p'.departed|
  {
    p'.departed[|p.departed|..]
  }

  predicate AllOf(ds: seq<Departure>, fate: Fate) {
    forall i :: 0 <= i < |ds| ==> ds[i].fate == fate
  }

  function BytesOf(ds: seq<Departure>): Bytes {
    Frame(Bodies(Recs(ds)))
  }

  lemma AddedBy(ds: seq<Departure>, recs: seq<Rec>, fate: Fate)
    ensures var ds' := ds + Depart(recs, fate);
            ds <= ds' && Recs(ds'[|ds|..]) == recs && AllOf(ds'[|ds|..], fate)
  {
    assert (ds + Depart(recs, fate))[|ds|..] == Depart(recs, fate);
  }

  /** No record is longer than m bytes, its newline included. */
  predicate LongestAtMost(recs: seq<Rec>, m: nat) {
    forall i :: 0 <= i < |recs| ==> |recs[i].body| + 1 <= m
  }

  /** What is lost of a payload over the limit: more than a tenth of the limit, by no more than the longest record. */
  ghost predicate CutToSize(recs: seq<Rec>, lost: nat, limit: nat) {
    limit / 10 + 1 <= lost && forall m: nat :: LongestAtMost(recs, m) ==> lost <= limit / 10 + m
  }

  /** What a returning push of flush k does to its payload. */
  ghost predicate FlushExplained(c: Config, p: Pusher, p': Pusher, k: nat, ok: bool)
    requires k < |p.flushes| == |p'.flushes| && |p.departed| <= |p'.departed|
  {
    var load, gone, rest := p.flushes[k].load.bytes, Added(p, p'), p'.flushes[k].load.bytes;
    && load == BytesOf(gone) + rest
    && if ok then AllOf(gone, Delivered) && rest == []
       else
         && AllOf(gone, LostToOverflow)
         && (|load| <= c.bufferSize ==> rest == load)
         && (|load| > c.bufferSize ==> CutToSize(p.flushes[k].load.recs, |BytesOf(gone)|, c.bufferSize))
  }

  lemma DroppedToSize(load: Chunk, limit: nat)
    requires Framed(load) && |load.bytes| > limit
    ensures CutToSize(load.recs, |Dropped(load, limit).bytes|, limit)
  {
    var bodies := Bodies(load.recs);
    CutIsWholeRecords(bodies, limit);
    forall m: nat | LongestAtMost(load.recs, m)
      ensures |Dropped(load, limit).bytes| <= limit / 10 + m
    {
      CutSize(bodies, limit, m);
    }
  }

  lemma FlushIsExplained(c: Config, p: Pusher, k: nat, ok: bool)
    requires k < |p.flushes| && Framed(p.flushes[k].load)
    ensures p.departed <= FlushReturns(c, p, k, ok).departed
    ensures FlushExplained(c, p, FlushReturns(c, p, k, ok), k, ok)
  {
    var load := p.flushes[k].load;
    if ok {
      AddedBy(p.departed, load.recs, Delivered);
    } else {
      CutFramed(load, c.bufferSize);
      if |load.bytes| > c.bufferSize {
        DroppedToSize(load, c.bufferSize);
      }
      AddedBy(p.departed, Dropped(load, c.bufferSize).recs, LostToOverflow);
    }
  }

  /** Every departure is explained: a successful push delivers exactly its payload, byte for byte; a failed flush loses
      nothing while the payload fits and else an oldest part of more than a tenth of the limit, and by no more than the
      longest record, handing back the rest; a
      failed push by the loop loses its payload; no other step takes a record away, and none takes a departure back. */
  lemma DeparturesAreExplained(c: Config, ss: seq<State>, steps: seq<Step>, k: nat)
    requires c.codec.Sound() && IsRun(c, ss, steps) && k < |steps|
    ensures ss[k].p.departed <= ss[k + 1].p.departed
    ensures var p, p', gone := ss[k].p, ss[k + 1].p, Added(ss[k].p, ss[k + 1].p);
            match steps[k]
            case Ending(FlushReturn(i, ok)) =>
              i < |p.flushes| == |p'.flushes| && FlushExplained(c, p, p', i, ok)
            case Ending(PushReturn(ok)) =>
              && p.pc.Pushing? && BytesOf(gone) == p.pc.load.bytes
              && AllOf(gone, if ok then Delivered else LostToFailedPush)
            case _ => gone == []
  {
    RunIsSound(c, ss, steps, k);
    var s, st := ss[k], steps[k];
    match st
    case Ending(o) => OutcomeExplains(c, s, o);
    case Select(b) => SelectDepartsNothing(c, s, b);
    case _ => OthersLeavePusher(c, s, st);
  }

  lemma SelectDepartsNothing(c: Config, s: State, b: Branch)
    requires SelectEnabled(s, b)
    ensures ApplySelect(c, s, b).p.departed == s.p.departed
  {
  }

  lemma OutcomeExplains(c: Config, s: State, o: Outcome)
    requires OutcomeEnabled(s, o) && AllFramed(s.p)
    ensures var p, p' := s.p, ApplyOutcome(c, s, o).p;
            && p.departed <= p'.departed
            && match o
               case FlushReturn(i, ok) => |p'.flushes| == |p.flushes| && FlushExplained(c, p, p', i, ok)
               case PushReturn(ok) =>
                 && BytesOf(Added(p, p')) == p.pc.load.bytes
                 && AllOf(Added(p, p'), if ok then Delivered else LostToFailedPush)
               case _ => Added(p, p') == []
  {
    match o
    case FlushReturn(i, ok) => FlushIsExplained(c, s.p, i, ok);
    case PushReturn(ok) =>
      var fate := if ok then Delivered else LostToFailedPush;
      assert ApplyOutcome(c, s, o).p == PushReturns(s.p, ok);
      assert PushReturns(s.p, ok).departed == s.p.departed + Depart(s.p.pc.load.recs, fate);
      AddedBy(s.p.departed, s.p.pc.load.recs, fate);
    case _ =>
  }

  /** The pusher's context cannot be seen done before another invocation. */
  predicate Refreshed(p: Pusher) {
    p.ctx == Background || (p.pc.Pushing? && p.pc.job == ForContextDone)
  }

  lemma StepKeepsRefreshed(c: Config, s: State, st: Step)
    requires Enabled(s, st) && st != Select(Invoke)
    requires Refreshed(s.p) || st == Select(ContextDone)
    ensures Refreshed(Apply(c, s, st).p)
    ensures Refreshed(s.p) ==> st != Select(ContextDone)
  {
    if !st.Select? && !st.Ending? {
      OthersLeavePusher(c, s, st);
    }
  }

  lemma {:induction false} StaysRefreshed(c: Config, ss: seq<State>, steps: seq<Step>, j: nat, k: nat)
    requires IsRun(c, ss, steps) && j < k <= |steps| && steps[j] == Select(ContextDone)
    requires forall m :: j < m < k ==> steps[m] != Select(Invoke)
    ensures Refreshed(ss[k].p)
  {
    if k > j + 1 {
      StaysRefreshed(c, ss, steps, j, k - 1);
    }
    StepKeepsRefreshed(c, ss[k - 1], steps[k - 1]);
  }

  /** The context-done branch takes the whole buffer, and fires at most once between two invocations. */
  lemma ContextDoneFiresOnce(c: Config, ss: seq<State>, steps: seq<Step>, j: nat, k: nat)
    requires IsRun(c, ss, steps) && j < k < |steps|
    requires steps[j] == Select(ContextDone) && steps[k] == Select(ContextDone)
    ensures exists m :: j < m < k && steps[m] == Select(Invoke)
    ensures |ss[j + 1].p.buf.bytes| == 0
  {
    if forall m :: j < m < k ==> steps[m] != Select(Invoke) {
      StaysRefreshed(c, ss, steps, j, k);
      assert false;
    }
  }

  // The context of the pusher.

  /** A push by the loop that a branch starts leaves the context as it was, but for the context-done branch, which drops
      it once the push has returned. */
  lemma BranchAndReturn(c: Config, s: State, b: Branch, ok: bool)
    requires SelectEnabled(s, b) && ApplySelect(c, s, b).p.pc.Pushing?
    ensures ApplySelect(c, s, b).p.ctx == s.p.ctx
    ensures PushReturns(ApplySelect(c, s, b).p, ok).ctx == if b == ContextDone then Background else s.p.ctx
  {
  }

  /** From the branch taken at j up to k the loop is inside the push that the branch started. */
  predicate PushedSince(ss: seq<State>, steps: seq<Step>, j: nat, k: nat) {
    j < k <= |steps| < |ss| && steps[j].Select? && forall m :: j < m <= k ==> ss[m].p.pc.Pushing?
  }

  lemma PushGoesOn(c: Config, s: State, st: Step)
    requires Enabled(s, st) && s.p.pc.Pushing? && Apply(c, s, st).p.pc.Pushing?
    ensures Apply(c, s, st).p.pc == s.p.pc && Apply(c, s, st).p.ctx == s.p.ctx
  {
    if !st.Ending? {
      OthersLeavePusher(c, s, st);
    }
  }

  lemma {:induction false} PushIsThatOf(c: Config, ss: seq<State>, steps: seq<Step>, j: nat, k: nat)
    requires IsRun(c, ss, steps) && PushedSince(ss, steps, j, k)
    ensures ss[k].p.pc == ss[j + 1].p.pc && ss[k].p.ctx == ss[j + 1].p.ctx
    decreases k
  {
    if k > j + 1 {
      PushIsThatOf(c, ss, steps, j, k - 1);
      PushGoesOn(c, ss[k - 1], steps[k - 1]);
    }
  }

  lemma BeginsPush(c: Config, s: State, st: Step)
    requires Enabled(s, st) && !s.p.pc.Pushing? && Apply(c, s, st).p.pc.Pushing?
    ensures st.Select?
  {
    if !st.Select? && !st.Ending? {
      OthersLeavePusher(c, s, st);
    }
  }

  lemma {:induction false} EveryPushHasBranch(c: Config, ss: seq<State>, steps: seq<Step>, k: nat) returns (j: nat)
    requires IsRun(c, ss, steps) && k <= |steps| && ss[k].p.pc.Pushing?
    ensures PushedSince(ss, steps, j, k)
  {
    if ss[k - 1].p.pc.Pushing? {
      j := EveryPushHasBranch(c, ss, steps, k - 1);
    } else {
      BeginsPush(c, ss[k - 1], steps[k - 1]);
      j := k - 1;
    }
  }

  /** Any other step but an invoke leaves the context; the context-done branch drops it at once if nothing is
      buffered. */
  lemma OtherSteps(c: Config, s: State, st: Step)
    requires Enabled(s, st) && !(st.Ending? && st.o.PushReturn?)
    ensures Apply(c, s, st).p.ctx ==
            if st == Select(Invoke) then Of(s.w.inv)
            else if st == Select(ContextDone) && |s.p.buf.bytes| == 0 then Background
            else s.p.ctx
  {
    if !st.Select? && !st.Ending? {
      OthersLeavePusher(c, s, st);
    }
  }

  /** The pusher's context, by the steps of the run alone: it is a new invocation's from its invoke on, and is dropped
      where a context-done branch ends, at once or when the push it started returns; no other step, no other branch's
      push changes it. */
  lemma ContextChangesExactlyWhen(c: Config, ss: seq<State>, steps: seq<Step>, k: nat) returns (j: nat)
    requires IsRun(c, ss, steps) && k < |steps|
    ensures steps[k].Ending? && steps[k].o.PushReturn? ==>
              && PushedSince(ss, steps, j, k)
              && ss[k].p.ctx == ss[j].p.ctx
              && ss[k + 1].p.ctx == if steps[j] == Select(ContextDone) then Background else ss[j].p.ctx
    ensures !(steps[k].Ending? && steps[k].o.PushReturn?) ==>
              ss[k + 1].p.ctx ==
              if steps[k] == Select(Invoke) && ss[k].w.ToPusher? then Of(ss[k].w.inv)
              else if steps[k] == Select(ContextDone) && |ss[k].p.buf.bytes| == 0 then Background
              else ss[k].p.ctx
  {
    j := 0;
    if steps[k].Ending? && steps[k].o.PushReturn? {
      j := EveryPushHasBranch(c, ss, steps, k);
      PushIsThatOf(c, ss, steps, j, k);
      BranchAndReturn(c, ss[j], steps[j].b, steps[k].o.ok);
      assert ss[k + 1].p == PushReturns(ss[k].p, steps[k].o.ok);
    } else {
      OtherSteps(c, ss[k], steps[k]);
    }
  }

  /** The context of an invocation that is over is done: its deferred cancel has run. */
  ghost predicate OverIsDone(s: State) {
    && WorkerNumbered(s)
    && forall i: nat :: Over(s, i) ==> i in s.dead
  }

  /** Whoever returns has its context cancelled, and nothing revives a context. */
  lemma NewlyOver(c: Config, s: State, st: Step, i: nat)
    requires Enabled(s, st) && StopOrder(s) && WorkerNumbered(s)
    ensures Over(Apply(c, s, st), i) && !Over(s, i) ==> i in Apply(c, s, st).dead
    ensures s.dead <= Apply(c, s, st).dead
  {
  }

  lemma StepKeepsOver(c: Config, s: State, st: Step)
    requires Enabled(s, st) && StopOrder(s) && OverIsDone(s)
    ensures OverIsDone(Apply(c, s, st))
  {
    StepNumbers(c, s, st, 0);
    forall i: nat | Over(Apply(c, s, st), i)
      ensures i in Apply(c, s, st).dead
    {
      NewlyOver(c, s, st, i);
    }
  }

  lemma {:induction false} RunKeepsOver(c: Config, ss: seq<State>, steps: seq<Step>, k: nat)
    requires IsRun(c, ss, steps) && k <= |steps|
    ensures OverIsDone(ss[k])
  {
    if k > 0 {
      RunKeepsOver(c, ss, steps, k - 1);
      RunStopsInOrder(c, ss, steps, k - 1);
      StepKeepsOver(c, ss[k - 1], steps[k - 1]);
    }
  }

  /** In every run: once an invocation is over, however it ended, its context is done, and a selecting pusher that
      still has it can take the context-done branch, which takes whatever came late - the whole buffer into a push, or
      the context away if there is none. */
  lemma LateBytesAreTaken(c: Config, ss: seq<State>, steps: seq<Step>, k: nat, i: nat)
    requires IsRun(c, ss, steps) && k <= |steps| && Over(ss[k], i)
    ensures i in ss[k].dead
    ensures ss[k].p.pc.Selecting? && ss[k].p.ctx == Of(i) ==>
              && Enabled(ss[k], Select(ContextDone))
              && var p' := Apply(c, ss[k], Select(ContextDone)).p;
                 if |ss[k].p.buf.bytes| > 0 then p'.pc.Pushing? && p'.pc.load == ss[k].p.buf && p'.buf == EMPTY
                 else p'.ctx == Background
  {
    RunKeepsOver(c, ss, steps, k);
  }
}
