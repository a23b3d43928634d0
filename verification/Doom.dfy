/** The worker that waits for a processor which will not listen again, and with it a Stop that never returns: exactly
    which step begins this, in every run. */
module Doom {
  import opened PusherState
  import opened Pipeline
  import opened Regime
  import opened DoneChannel
  import opened Blocking

  /** The worker waits for a processor that is stopping, or that waits for a pusher which waits for the worker. */
  predicate Doomed(s: State) {
    s.w.ToProcessor? && (!Serving(s.proc.pc) || (s.p.pc.SendingDone? && !s.proc.pc.Idle?))
  }

  /** No step ends it: the worker never moves and Stop never returns. */
  lemma DoomIsPermanent(c: Config, s: State, st: Step)
    requires Attached(s) && Doomed(s) && Enabled(s, st)
    ensures Doomed(Apply(c, s, st)) && Apply(c, s, st).w == s.w
    ensures !s.stop.phase.Finished? ==> !Apply(c, s, st).stop.phase.Finished?
  {
    if st.Ending? && st.o.PushReturn? {
      PushReturnMoves(s, st.o.ok);
    }
  }

  /** The processor is stopped while the worker waits for it; the pusher takes an invocation when the processor is
      stopping; or the circle closes. */
  predicate Dooms(c: Config, s: State, st: Step) {
    || (st == Halting(StopProcessor) && s.w.ToProcessor?)
    || (st == Select(Invoke) && !Serving(s.proc.pc))
    || EntersCircle(c, s, st)
  }

  lemma SelectDooms(c: Config, s: State, b: Branch)
    requires SelectEnabled(s, b) && StopOrder(s) && Attached(s) && !Doomed(s)
    ensures Doomed(ApplySelect(c, s, b)) <==> Dooms(c, s, Select(b))
  {
  }

  lemma OutcomeDooms(c: Config, s: State, o: Outcome)
    requires OutcomeEnabled(s, o) && StopOrder(s) && Attached(s) && !Doomed(s)
    ensures !Doomed(ApplyOutcome(c, s, o))
  {
    if o.PushReturn? {
      PushReturnMoves(s, o.ok);
    }
  }

  lemma DoomedExactlyBy(c: Config, s: State, st: Step)
    requires Enabled(s, st) && StopOrder(s) && Attached(s) && !Doomed(s)
    ensures Doomed(Apply(c, s, st)) <==> Dooms(c, s, st)
  {
    match st
    case Select(b) => SelectDooms(c, s, b);
    case Ending(o) => OutcomeDooms(c, s, o);
    case _ =>
  }

  /** In every run whatsoever, the worker is doomed exactly from such a step on. */
  lemma DoomBeginsExactlyWhen(c: Config, ss: seq<State>, steps: seq<Step>, k: nat)
    requires IsRun(c, ss, steps) && k < |steps|
    ensures Doomed(ss[k + 1]) <==> Doomed(ss[k]) || Dooms(c, ss[k], steps[k])
  {
    RunIsAttached(c, ss, steps, k);
    RunStopsInOrder(c, ss, steps, k);
    if Doomed(ss[k]) {
      DoomIsPermanent(c, ss[k], steps[k]);
    } else {
      DoomedExactlyBy(c, ss[k], steps[k]);
    }
  }

  /** From then on the worker stays where it is and Stop never returns. */
  lemma {:induction false} DoomLasts(c: Config, ss: seq<State>, steps: seq<Step>, j: nat, k: nat)
    requires IsRun(c, ss, steps) && j <= k <= |steps| && Doomed(ss[j])
    ensures Doomed(ss[k]) && ss[k].w == ss[j].w && !ss[k].stop.phase.Finished?
    decreases k
  {
    if k > j {
      DoomLasts(c, ss, steps, j, k - 1);
      RunIsAttached(c, ss, steps, k - 1);
      DoomIsPermanent(c, ss[k - 1], steps[k - 1]);
    } else {
      RunStopsInOrder(c, ss, steps, j);
      RunIsAttached(c, ss, steps, j);
    }
  }

  // Which offers of done are taken.

  lemma OfferStays(c: Config, s: State, st: Step)
    requires Attached(s) && s.p.pc.SendingDone? && (Lost(s) || Doomed(s)) && Enabled(s, st)
    ensures Apply(c, s, st).p.pc == s.p.pc && (Lost(Apply(c, s, st)) || Doomed(Apply(c, s, st)))
  {
    if Lost(s) {
      LossIsPermanent(c, s, st);
    } else {
      DoomIsPermanent(c, s, st);
    }
  }

  /** An offer of done stays for good exactly if its reader has left or is doomed; otherwise the next step towards
      taking it is enabled. */
  lemma OfferStaysExactlyWhen(c: Config, s: State)
    requires StopOrder(s) && Attached(s) && s.p.pc.SendingDone?
    ensures Enabled(s, PusherTurn(s)) <==> !Lost(s) && !Doomed(s)
    ensures Lost(s) || Doomed(s) ==> forall st :: Enabled(s, st) ==> Apply(c, s, st).p.pc == s.p.pc
  {
    if Lost(s) || Doomed(s) {
      forall st | Enabled(s, st)
        ensures Apply(c, s, st).p.pc == s.p.pc
      {
        OfferStays(c, s, st);
      }
    }
  }

  /** In every run whatsoever: an offer whose reader has left or is doomed is never taken; any other can be brought
      nearer at once, by a step that takes it or sends its reader on to read. */
  lemma {:induction false} OfferLastsExactlyWhen(c: Config, ss: seq<State>, steps: seq<Step>, j: nat, k: nat)
    requires IsRun(c, ss, steps) && j <= k <= |steps| && ss[j].p.pc.SendingDone?
    ensures if Lost(ss[j]) || Doomed(ss[j]) then ss[k].p.pc == ss[j].p.pc && (Lost(ss[k]) || Doomed(ss[k]))
            else Enabled(ss[j], PusherTurn(ss[j]))
    decreases k
  {
    RunIsAttached(c, ss, steps, j);
    RunStopsInOrder(c, ss, steps, j);
    OfferStaysExactlyWhen(c, ss[j]);
    if k > j && (Lost(ss[j]) || Doomed(ss[j])) {
      OfferLastsExactlyWhen(c, ss, steps, j, k - 1);
      RunIsAttached(c, ss, steps, k - 1);
      OfferStays(c, ss[k - 1], steps[k - 1]);
    }
  }
}
