/** However many flushes fail, no flushed payload outgrows the limit by more than a tenth of it. */
module SizeBound {
  import opened Overflow
  import opened PusherState
  import opened Pipeline
  import opened Conservation
  import opened Regime

  /** What may arrive before the first flush starts and between consecutive starts. */
  function Slack(c: Config): nat {
    c.bufferSize / 10 + 1
  }

  predicate Paced(c: Config, s: State) {
    |s.p.flushes| <= 1 && s.p.sinceStart <= Slack(c)
  }

  predicate Bounded(c: Config, p: Pusher) {
    && (forall k :: 0 <= k < |p.flushes| ==>
          |p.flushes[k].load.bytes| <= if p.flushes[k].Sending? then c.bufferSize + Slack(c) else c.bufferSize)
    && |p.buf.bytes| <= p.sinceStart + if |p.flushes| == 0 then c.bufferSize else 0
  }

  lemma RetainedFits(c: Config, load: Chunk)
    requires Framed(load) && |load.bytes| <= c.bufferSize + Slack(c)
    ensures |Retained(load, c.bufferSize).bytes| <= c.bufferSize
  {
    CutIsWholeRecords(Bodies(load.recs), c.bufferSize);
  }

  lemma SelectKeepsBound(c: Config, s: State, b: Branch)
    requires SelectEnabled(s, b) && Bounded(c, s.p) && Paced(c, s) && Paced(c, ApplySelect(c, s, b))
    ensures Bounded(c, ApplySelect(c, s, b).p)
  {
  }

  lemma OutcomeKeepsBound(c: Config, s: State, o: Outcome)
    requires OutcomeEnabled(s, o) && Bounded(c, s.p) && AllFramed(s.p)
    ensures Bounded(c, ApplyOutcome(c, s, o).p)
  {
    if o.FlushReturn? {
      RetainedFits(c, s.p.flushes[o.k].load);
    } else if o.PushReturn? {
      assert ApplyOutcome(c, s, o).p == PushReturns(s.p, o.ok);
    }
  }

  lemma {:induction false} RunIsBounded(c: Config, ss: seq<State>, steps: seq<Step>, k: nat)
    requires c.codec.Sound() && IsRun(c, ss, steps) && k <= |steps|
    requires forall j :: 0 <= j <= k ==> Paced(c, ss[j])
    ensures Bounded(c, ss[k].p)
  {
    if k > 0 {
      RunIsBounded(c, ss, steps, k - 1);
      RunIsSound(c, ss, steps, k - 1);
      var s, st := ss[k - 1], steps[k - 1];
      match st
      case Select(b) => SelectKeepsBound(c, s, b);
      case Ending(o) => OutcomeKeepsBound(c, s, o);
      case _ => OthersLeavePusher(c, s, st);
    }
  }

  /** Size bound: with limit B, at most one flush in flight and at most B/10 + 1 bytes between flush starts, no
      flushed payload ever exceeds B + B/10 + 1 bytes, and what a failed flush hands back fits B. */
  lemma PayloadsAreBounded(c: Config, ss: seq<State>, steps: seq<Step>, k: nat, i: nat)
    requires c.codec.Sound() && IsRun(c, ss, steps) && k <= |steps| && i < |ss[k].p.flushes|
    requires forall j :: 0 <= j <= k ==> Paced(c, ss[j])
    ensures var f := ss[k].p.flushes[i];
            |f.load.bytes| <= if f.Sending? then c.bufferSize + c.bufferSize / 10 + 1 else c.bufferSize
  {
    RunIsBounded(c, ss, steps, k);
  }

  /** In runs whose Invokes end through done the pace of arrivals is all that is needed: one flush at a time is
      guaranteed. */
  lemma PayloadsAreBoundedByPace(c: Config, ss: seq<State>, steps: seq<Step>, k: nat, i: nat)
    requires c.codec.Sound() && IsRun(c, ss, steps) && EndsThroughDone(steps) && k <= |steps| && i < |ss[k].p.flushes|
    requires forall j :: 0 <= j <= k ==> ss[j].p.sinceStart <= Slack(c)
    ensures var f := ss[k].p.flushes[i];
            |f.load.bytes| <= if f.Sending? then c.bufferSize + c.bufferSize / 10 + 1 else c.bufferSize
  {
    forall j | 0 <= j <= k
      ensures Paced(c, ss[j])
    {
      RunIsPaired(c, ss, steps, j);
    }
    PayloadsAreBounded(c, ss, steps, k, i);
  }
}
