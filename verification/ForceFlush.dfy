/** Force flush over every interleaving, callers that gave up included. */
module ForceFlush {
  import opened Telemetry
  import opened PusherState
  import opened Pipeline
  import opened Conservation

  /** The request with number q has not reached the pusher. */
  predicate Fresh(f: Force, q: nat) {
    q < f.next && q !in f.taken && q !in f.replies
  }

  predicate Orderly(s: State) {
    var f := s.force;
    && (forall q :: q in f.taken ==> q < f.next)
    && (forall q :: q in f.replies ==> q in f.taken)
    && (f.queue.Some? ==> Fresh(f, f.queue.value))
    && (s.w.OfferingForce? ==> Fresh(f, s.w.q) && f.queue != Some(s.w.q))
    && (s.p.pc.Pushing? ==> s.p.buf == EMPTY)
    && (s.p.pc.Pushing? && s.p.pc.job.ForForce? ==>
          s.p.pc.job.q in f.taken && s.p.pc.job.q !in f.replies && s.p.pc.load.recs == f.taken[s.p.pc.job.q])
  }

  /** A request answered true has had everything delivered that the buffer held when it was taken up. */
  predicate Truthful(s: State) {
    forall q, r :: q in s.force.replies && s.force.replies[q] && q in s.force.taken && r in s.force.taken[q] ==>
      Departure(r, Delivered) in s.p.departed
  }

  lemma SelectKeepsOrderly(c: Config, s: State, b: Branch)
    requires SelectEnabled(s, b) && Orderly(s)
    ensures Orderly(ApplySelect(c, s, b))
  {
  }

  lemma OutcomeKeepsOrderly(c: Config, s: State, o: Outcome)
    requires OutcomeEnabled(s, o) && Orderly(s)
    ensures Orderly(ApplyOutcome(c, s, o))
  {
  }

  lemma WorkKeepsOrderly(c: Config, s: State, k: Work)
    requires WorkEnabled(s, k) && Orderly(s)
    ensures Orderly(ApplyWork(s, k))
  {
  }

  lemma StepKeepsOrderly(c: Config, s: State, st: Step)
    requires Enabled(s, st) && Orderly(s)
    ensures Orderly(Apply(c, s, st))
  {
    match st
    case Select(b) => SelectKeepsOrderly(c, s, b);
    case Ending(o) => OutcomeKeepsOrderly(c, s, o);
    case Working(k) => WorkKeepsOrderly(c, s, k);
    case _ =>
      OthersLeavePusher(c, s, st);
      assert Apply(c, s, st).force == s.force;
  }

  /** Answers and the record of what was taken up never change, and departures are final. */
  predicate Grows(s: State, s': State) {
    && (forall q :: q in s.force.taken ==> q in s'.force.taken && s'.force.taken[q] == s.force.taken[q])
    && (forall q :: q in s.force.replies ==> q in s'.force.replies && s'.force.replies[q] == s.force.replies[q])
    && (forall d :: d in s.p.departed ==> d in s'.p.departed)
  }

  lemma SelectGrows(c: Config, s: State, b: Branch)
    requires SelectEnabled(s, b) && Orderly(s)
    ensures Grows(s, ApplySelect(c, s, b))
    ensures ApplySelect(c, s, b).p.departed == s.p.departed
  {
  }

  lemma OutcomeGrows(c: Config, s: State, o: Outcome)
    requires OutcomeEnabled(s, o) && Orderly(s)
    ensures Grows(s, ApplyOutcome(c, s, o))
  {
  }

  lemma StepGrows(c: Config, s: State, st: Step)
    requires Enabled(s, st) && Orderly(s)
    ensures Grows(s, Apply(c, s, st))
  {
    match st
    case Select(b) => SelectGrows(c, s, b);
    case Ending(o) => OutcomeGrows(c, s, o);
    case _ => OthersLeavePusher(c, s, st);
  }

  lemma SelectKeepsTruthful(c: Config, s: State, b: Branch)
    requires SelectEnabled(s, b) && Orderly(s) && Truthful(s) && AllFramed(s.p)
    ensures Truthful(ApplySelect(c, s, b))
  {
    if b.ForceFlush? {
      EmptyIffNoRecords(s.p.buf);
    }
  }

  lemma OutcomeKeepsTruthful(c: Config, s: State, o: Outcome)
    requires OutcomeEnabled(s, o) && Orderly(s) && Truthful(s)
    ensures Truthful(ApplyOutcome(c, s, o))
  {
    OutcomeGrows(c, s, o);
    if o.PushReturn? && s.p.pc.job.ForForce? && o.ok {
      var load, s' := s.p.pc.load, ApplyOutcome(c, s, o);
      assert s'.p.departed == s.p.departed + Depart(load.recs, Delivered);
      forall r | r in load.recs
        ensures Departure(r, Delivered) in s'.p.departed
      {
        var i :| 0 <= i < |load.recs| && load.recs[i] == r;
        assert Depart(load.recs, Delivered)[i] == Departure(r, Delivered);
      }
    }
  }

  lemma StepKeepsTruthful(c: Config, s: State, st: Step)
    requires Enabled(s, st) && Orderly(s) && Truthful(s) && AllFramed(s.p)
    ensures Truthful(Apply(c, s, st))
  {
    match st
    case Select(b) => SelectKeepsTruthful(c, s, b);
    case Ending(o) => OutcomeKeepsTruthful(c, s, o);
    case _ => OthersLeavePusher(c, s, st);
  }

  lemma {:induction false} RunIsTruthful(c: Config, ss: seq<State>, steps: seq<Step>, k: nat)
    requires c.codec.Sound() && IsRun(c, ss, steps) && k <= |steps|
    ensures Orderly(ss[k]) && Truthful(ss[k])
  {
    if k > 0 {
      var s, st := ss[k - 1], steps[k - 1];
      RunIsTruthful(c, ss, steps, k - 1);
      RunIsSound(c, ss, steps, k - 1);
      StepKeepsOrderly(c, s, st);
      StepKeepsTruthful(c, s, st);
    }
  }

  /** The step answers request q. */
  predicate Answers(s: State, st: Step, q: nat) {
    || (st == Select(ForceFlush) && s.force.queue == Some(q) && |s.p.buf.bytes| == 0)
    || (st.Ending? && st.o.PushReturn? && s.p.pc.Pushing? && s.p.pc.job == ForForce(q))
  }

  /** An answer never blocks the pusher and is never dropped: the request's reply channel is still empty, the reply
      goes in, the pusher selects again at once, and its buffer is empty. */
  lemma AnswerNeverBlocks(c: Config, ss: seq<State>, steps: seq<Step>, k: nat, q: nat)
    requires c.codec.Sound() && IsRun(c, ss, steps) && k < |steps| && Answers(ss[k], steps[k], q)
    ensures q !in ss[k].force.replies && q in ss[k + 1].force.replies
    ensures ss[k + 1].p.pc.Selecting? && ss[k + 1].p.buf == EMPTY
    ensures ss[k + 1].force.replies[q] <==> steps[k] == Select(ForceFlush) || steps[k] == Ending(PushReturn(true))
  {
    RunIsTruthful(c, ss, steps, k);
    RunIsSound(c, ss, steps, k);
    EmptyIffNoRecords(ss[k].p.buf);
  }

  lemma GrowsOn(s: State, t: State, u: State)
    requires Grows(s, t) && Grows(t, u)
    ensures Grows(s, u)
  {
  }

  lemma {:induction false} RunGrows(c: Config, ss: seq<State>, steps: seq<Step>, j: nat, k: nat)
    requires c.codec.Sound() && IsRun(c, ss, steps) && j <= k <= |steps|
    ensures Grows(ss[j], ss[k])
  {
    if k > j {
      RunGrows(c, ss, steps, j, k - 1);
      RunIsTruthful(c, ss, steps, k - 1);
      StepGrows(c, ss[k - 1], steps[k - 1]);
      GrowsOn(ss[j], ss[k - 1], ss[k]);
    }
  }

  /** Each request is answered at most once. */
  lemma AnsweredOnce(c: Config, ss: seq<State>, steps: seq<Step>, j: nat, k: nat, q: nat)
    requires c.codec.Sound() && IsRun(c, ss, steps) && j < k < |steps|
    requires Answers(ss[j], steps[j], q)
    ensures !Answers(ss[k], steps[k], q)
  {
    AnswerNeverBlocks(c, ss, steps, j, q);
    RunGrows(c, ss, steps, j + 1, k);
    if Answers(ss[k], steps[k], q) {
      AnswerNeverBlocks(c, ss, steps, k, q);
    }
  }

  /** A true answer means that every record in the buffer when the request was taken up was delivered. */
  lemma TrueMeansDelivered(c: Config, ss: seq<State>, steps: seq<Step>, j: nat, k: nat, q: nat, r: Rec)
    requires c.codec.Sound() && IsRun(c, ss, steps) && j < k <= |steps|
    requires steps[j] == Select(ForceFlush) && ss[j].force.queue == Some(q)
    requires q in ss[k].force.replies && ss[k].force.replies[q]
    requires r in ss[j].p.buf.recs
    ensures Departure(r, Delivered) in ss[k].p.departed
  {
    RunIsTruthful(c, ss, steps, k);
    assert ss[j + 1].force.taken[q] == ss[j].p.buf.recs;
    RunGrows(c, ss, steps, j + 1, k);
  }

  /** A request a caller waits for is answered, queued, or the one the loop is pushing for. */
  predicate RequestUnderWay(s: State) {
    s.w.AwaitingForce? ==>
      || s.w.q in s.force.replies
      || s.force.queue == Some(s.w.q)
      || (s.p.pc.Pushing? && s.p.pc.job == ForForce(s.w.q))
  }

  lemma SelectKeepsRequest(c: Config, s: State, b: Branch)
    requires SelectEnabled(s, b) && RequestUnderWay(s)
    ensures RequestUnderWay(ApplySelect(c, s, b))
  {
  }

  lemma OutcomeKeepsRequest(c: Config, s: State, o: Outcome)
    requires OutcomeEnabled(s, o) && RequestUnderWay(s)
    ensures RequestUnderWay(ApplyOutcome(c, s, o))
  {
  }

  lemma StepKeepsRequest(c: Config, s: State, st: Step)
    requires Enabled(s, st) && RequestUnderWay(s)
    ensures RequestUnderWay(Apply(c, s, st))
  {
    match st
    case Select(b) => SelectKeepsRequest(c, s, b);
    case Ending(o) => OutcomeKeepsRequest(c, s, o);
    case _ =>
  }

  /** A queued request stays queued until the pusher takes it up, whether or not its caller stays. */
  lemma QueuedUntilTaken(c: Config, s: State, st: Step, q: nat)
    requires Enabled(s, st) && s.force.queue == Some(q)
    ensures if st == Select(Branch.ForceFlush) then
              Apply(c, s, st).force.queue == None && q in Apply(c, s, st).force.taken
            else Apply(c, s, st).force.queue == Some(q)
  {
  }

  /** No request is lost, in any run: until its caller leaves, a force flush that was accepted is answered, or waits
      in the queue, where a selecting pusher can take it up at once, or is being pushed for, and that push answers it.
      */
  lemma {:induction false} NoRequestIsLost(c: Config, ss: seq<State>, steps: seq<Step>, k: nat)
    requires IsRun(c, ss, steps) && k <= |steps|
    ensures RequestUnderWay(ss[k])
    ensures ss[k].w.AwaitingForce? && ss[k].w.q !in ss[k].force.replies ==>
              if ss[k].p.pc.Pushing? && ss[k].p.pc.job == ForForce(ss[k].w.q) then
                ss[k].w.q in Apply(c, ss[k], Ending(PushReturn(true))).force.replies
              else ss[k].p.pc.Selecting? ==> Enabled(ss[k], Select(Branch.ForceFlush))
  {
    if k > 0 {
      NoRequestIsLost(c, ss, steps, k - 1);
      StepKeepsRequest(c, ss[k - 1], steps[k - 1]);
    }
  }
}
