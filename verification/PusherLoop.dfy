/** The pusher as the object it is: its select loop reassigns buf, ctx and doneC, and flush cuts a payload with an
    index loop. Each method is proved against the branch functions the step system uses. */
module PusherLoop {
  import opened Framing
  import opened Overflow
  import opened Telemetry
  import opened PusherState
  import opened Pipeline
  import opened Conservation

  /** One turn of the select: the branch taken, and how its pushes turn out. */
  datatype Turn =
    | TBytes(bytes: Bytes, bodies: seq<Bytes>)
    | TRuntimeDone(contextIsDone: bool, ok: bool)
    | TContextDone(ok: bool)
    | TInvoke(inv: nat)
    | TFlushEnds(k: nat, ok: bool)
    | TFlushResponse(k: nat)
    | TForce(q: nat, ok: bool)
    | TStop(ok: bool)

  /** Everything a branch waits for happens: its push returns, its done and its stopped are taken. */
  function Settle(p: Pusher, ok: bool): Pusher {
    var p1 := if p.pc.Pushing? then PushReturns(p, ok) else p;
    var p2 := if p1.pc.SendingDone? then DoneSent(p1) else p1;
    if p2.pc.SendingStopped? then StoppedSent(p2) else p2
  }

  predicate TurnPossible(p: Pusher, t: Turn) {
    match t
    case TFlushEnds(k, _) => k < |p.flushes| && p.flushes[k].Sending?
    case TFlushResponse(k) => k < |p.flushes| && p.flushes[k].Replying?
    case _ => true
  }

  function AfterTurn(c: Config, p: Pusher, t: Turn): Pusher
    requires TurnPossible(p, t)
  {
    match t
    case TBytes(bytes, bodies) => Receive(p, bytes, bodies)
    case TRuntimeDone(contextIsDone, ok) => Settle(TakeRuntimeDone(c, p, contextIsDone), ok)
    case TContextDone(ok) => Settle(TakeContextDone(p), ok)
    case TInvoke(inv) => Settle(TakeInvoke(c, p, inv), true)
    case TFlushEnds(k, ok) => FlushReturns(c, p, k, ok)
    case TFlushResponse(k) => Settle(TakeReply(p, k), true)
    case TForce(q, ok) => Settle(TakeForce(p, q), ok)
    case TStop(ok) => Settle(TakeStop(p), ok)
  }

  /** The turns up to the one that ends the loop. */
  function AfterTurns(c: Config, p: Pusher, turns: seq<Turn>): Pusher
    requires TurnsPossible(c, p, turns)
    decreases |turns|
  {
    if |turns| == 0 || p.pc.Exited? then p else AfterTurns(c, AfterTurn(c, p, turns[0]), turns[1..])
  }

  predicate TurnsPossible(c: Config, p: Pusher, turns: seq<Turn>)
    decreases |turns|
  {
    |turns| == 0 || p.pc.Exited? ||
    (TurnPossible(p, turns[0]) && TurnsPossible(c, AfterTurn(c, p, turns[0]), turns[1..]))
  }

  /** The turn that a branch of the step system's select is. */
  function TurnOf(s: State, b: Branch, ok: bool): Turn
    requires SelectEnabled(s, b)
  {
    match b
    case BytesIn => TBytes(s.proc.pc.bytes, if s.proc.pc.Emitting? then s.proc.pc.bodies else [])
    case RuntimeDone => TRuntimeDone(IsDone(s.p.ctx, s.dead), ok)
    case ContextDone => TContextDone(ok)
    case Invoke => TInvoke(s.w.inv)
    case FlushResponse(k) => TFlushResponse(k)
    case StopMessage => TStop(ok)
    case ForceFlush => TForce(s.force.queue.value, ok)
  }

  /** A turn of the loop is the branch's step, once what it waits for has happened. */
  lemma TurnIsSettledBranch(c: Config, s: State, b: Branch, ok: bool)
    requires SelectEnabled(s, b)
    ensures AfterTurn(c, s.p, TurnOf(s, b, ok)) == Settle(ApplySelect(c, s, b).p, ok)
  {
  }

  /** And settling is taking the outcomes' steps: a push returns, done is taken, stopped is taken. */
  lemma SettlingIsOutcomes(c: Config, s: State, ok: bool)
    ensures OutcomeEnabled(s, PushReturn(ok)) ==> Settle(s.p, ok) == Settle(ApplyOutcome(c, s, PushReturn(ok)).p, ok)
    ensures OutcomeEnabled(s, DoneTaken) ==> Settle(s.p, ok) == Settle(ApplyOutcome(c, s, DoneTaken).p, ok)
    ensures OutcomeEnabled(s, StoppedTaken) ==> Settle(s.p, ok) == ApplyOutcome(c, s, StoppedTaken).p
    ensures s.p.pc.Selecting? || s.p.pc.Exited? ==> Settle(s.p, ok) == s.p
  {
  }

  /** The cut loop of flush. */
  method CutOverflow(payload: Bytes, bufferSize: nat) returns (kept: Bytes, cut: nat)
    ensures cut == CutIndex(payload, bufferSize)
    ensures kept == payload[cut..] == Kept(payload, bufferSize)
  {
    cut := 0;
    kept := payload;
    if |payload| > bufferSize {
      var start := bufferSize / 10;
      var i := start;
      while i < |payload|
        invariant bufferSize / 10 <= i <= |payload|
        invariant start == bufferSize / 10
        invariant FirstSep(payload, bufferSize / 10) == FirstSep(payload, i)
      {
        if payload[i] == SEP {
          start := i + 1;
          break;
        }
        i := i + 1;
      }
      cut := start;
      kept := payload[start..];
    }
  }

  // What any sequence of turns keeps.

  /** Each received record is in one place, and every payload is whole records. */
  ghost predicate InOrder(p: Pusher) {
    Balanced(p) && AllFramed(p)
  }

  predicate ArrivalsFramed(turns: seq<Turn>) {
    forall i :: 0 <= i < |turns| && turns[i].TBytes? ==>
      turns[i].bytes == Frame(turns[i].bodies) && AllClean(turns[i].bodies)
  }

  lemma KeepsBalance(p: Pusher, p': Pusher)
    requires Balanced(p) && InArrivalOrder(p'.received) && forall r :: KeepsBooks(p, p', r)
    ensures Balanced(p')
  {
    forall r
      ensures Tally(p', r) == Occurrences(p'.received, r)
    {
      assert KeepsBooks(p, p', r);
    }
  }

  lemma PushReturnsInOrder(p: Pusher, ok: bool)
    requires InOrder(p) && p.pc.Pushing?
    ensures InOrder(PushReturns(p, ok))
  {
    forall r
      ensures KeepsBooks(p, PushReturns(p, ok), r)
    {
      PushReturnsTally(p, ok, r);
    }
    KeepsBalance(p, PushReturns(p, ok));
  }

  /** Only the loop's position and its done channel change. */
  lemma MoveInOrder(p: Pusher, p': Pusher)
    requires InOrder(p) && !p.pc.Pushing? && !p'.pc.Pushing?
    requires p'.buf == p.buf && p'.flushes == p.flushes && p'.received == p.received && p'.departed == p.departed
    ensures InOrder(p')
  {
    assert forall r :: Tally(p', r) == Tally(p, r);
  }

  lemma SettleInOrder(p: Pusher, ok: bool)
    requires InOrder(p)
    ensures InOrder(Settle(p, ok))
  {
    var p1 := if p.pc.Pushing? then PushReturns(p, ok) else p;
    if p.pc.Pushing? {
      PushReturnsInOrder(p, ok);
    }
    if !p1.pc.Pushing? {
      MoveInOrder(p1, Settle(p, ok));
    }
  }

  lemma StartPushInOrder(p: Pusher, job: Job)
    requires InOrder(p) && p.pc.Selecting?
    ensures InOrder(StartPush(p, job))
  {
    StartPushFramed(p, job);
    forall r
      ensures KeepsBooks(p, StartPush(p, job), r)
    {
      StartPushTally(p, job, r);
    }
    KeepsBalance(p, StartPush(p, job));
  }

  lemma StartFlushInOrder(p: Pusher)
    requires InOrder(p)
    ensures InOrder(StartFlush(p))
  {
    StartFlushFramed(p);
    forall r
      ensures KeepsBooks(p, StartFlush(p), r)
    {
      StartFlushTally(p, r);
    }
    KeepsBalance(p, StartFlush(p));
  }

  lemma ReceiveInOrder(p: Pusher, bytes: Bytes, bodies: seq<Bytes>)
    requires InOrder(p) && bytes == Frame(bodies) && AllClean(bodies)
    ensures InOrder(Receive(p, bytes, bodies))
  {
    ReceiveFramed(p, bytes, bodies);
    forall r
      ensures KeepsBooks(p, Receive(p, bytes, bodies), r)
    {
      ReceiveTally(p, bytes, bodies, r);
    }
    KeepsBalance(p, Receive(p, bytes, bodies));
  }

  lemma TakeReplyInOrder(p: Pusher, k: nat)
    requires InOrder(p) && p.pc.Selecting? && k < |p.flushes|
    ensures InOrder(TakeReply(p, k))
  {
    TakeReplyFramed(p, k);
    forall r
      ensures KeepsBooks(p, TakeReply(p, k), r)
    {
      TakeReplyTally(p, k, r);
    }
    KeepsBalance(p, TakeReply(p, k));
  }

  lemma FlushReturnsInOrder(c: Config, p: Pusher, k: nat, ok: bool)
    requires InOrder(p) && k < |p.flushes|
    ensures InOrder(FlushReturns(c, p, k, ok))
  {
    FlushReturnsFramed(c, p, k, ok);
    forall r
      ensures KeepsBooks(p, FlushReturns(c, p, k, ok), r)
    {
      FlushReturnsTally(c, p, k, ok, r);
    }
    KeepsBalance(p, FlushReturns(c, p, k, ok));
  }

  lemma TakeInvokeInOrder(c: Config, p: Pusher, inv: nat)
    requires InOrder(p) && p.pc.Selecting?
    ensures InOrder(TakeInvoke(c, p, inv))
  {
    var p1 := p.(ctx := Of(inv), doneC := Some(inv));
    MoveInOrder(p, p1);
    StartFlushInOrder(p1);
    if |p.buf.bytes| == 0 || !c.flushAtNextInvoke {
      MoveInOrder(p, TakeInvoke(c, p, inv));
    }
  }

  /** A branch that pushes the buffer if there is one. */
  lemma PushingTurnInOrder(p: Pusher, p': Pusher, job: Job, ok: bool)
    requires InOrder(p) && p.pc.Selecting?
    requires p' == StartPush(p, job) || p' == p || p' == p.(ctx := Background) || p' == FinishStop(p)
    ensures InOrder(Settle(p', ok))
  {
    StartPushInOrder(p, job);
    if !p'.pc.Pushing? {
      MoveInOrder(p, p');
    }
    SettleInOrder(p', ok);
  }

  lemma TurnInOrder(c: Config, p: Pusher, t: Turn)
    requires InOrder(p) && p.pc.Selecting? && TurnPossible(p, t) && ArrivalsFramed([t])
    ensures InOrder(AfterTurn(c, p, t))
  {
    match t
    case TBytes(bytes, bodies) =>
      assert [t][0] == t;
      ReceiveInOrder(p, bytes, bodies);
    case TRuntimeDone(contextIsDone, ok) =>
      StartFlushInOrder(p);
      SettleInOrder(StartFlush(p), ok);
      if TakeRuntimeDone(c, p, contextIsDone) != StartFlush(p) {
        PushingTurnInOrder(p, TakeRuntimeDone(c, p, contextIsDone), ForRuntimeDone, ok);
      }
    case TContextDone(ok) => PushingTurnInOrder(p, TakeContextDone(p), ForContextDone, ok);
    case TInvoke(inv) =>
      TakeInvokeInOrder(c, p, inv);
      SettleInOrder(TakeInvoke(c, p, inv), true);
    case TFlushEnds(k, ok) => FlushReturnsInOrder(c, p, k, ok);
    case TFlushResponse(k) =>
      TakeReplyInOrder(p, k);
      SettleInOrder(TakeReply(p, k), true);
    case TForce(q, ok) => PushingTurnInOrder(p, TakeForce(p, q), ForForce(q), ok);
    case TStop(ok) => PushingTurnInOrder(p, TakeStop(p), ForStop, ok);
  }

  lemma TurnEnds(c: Config, p: Pusher, t: Turn)
    requires p.pc.Selecting? && TurnPossible(p, t)
    ensures AfterTurn(c, p, t).pc == if t.TStop? then Exited else Selecting
  {
  }

  /** Over any turns, whatever their order: each received record stays in exactly one place and every payload whole
      records, and the loop ends exactly if one of the turns is a stop. */
  lemma {:induction false} TurnsInOrder(c: Config, p: Pusher, turns: seq<Turn>)
    requires p.pc.Selecting? && TurnsPossible(c, p, turns)
    ensures InOrder(p) && ArrivalsFramed(turns) ==> InOrder(AfterTurns(c, p, turns))
    ensures AfterTurns(c, p, turns).pc == if exists i :: 0 <= i < |turns| && turns[i].TStop? then Exited else Selecting
    decreases |turns|
  {
    if |turns| > 0 {
      TurnEnds(c, p, turns[0]);
      if InOrder(p) && ArrivalsFramed(turns) {
        TurnInOrder(c, p, turns[0]);
      }
      if !turns[0].TStop? {
        TurnsInOrder(c, AfterTurn(c, p, turns[0]), turns[1..]);
        assert forall i :: 1 <= i < |turns| ==> turns[i] == turns[1..][i - 1];
      }
    }
  }

  /** A flush goroutine: the bytes it is pushing, or has come back with. */
  datatype Parcel = Parcel(under: Ctx, bytes: Bytes, replying: bool)

  function FlushOf(parcel: Parcel, recs: seq<Rec>): Flush {
    if parcel.replying then Replying(parcel.under, Chunk(parcel.bytes, recs))
    else Sending(parcel.under, Chunk(parcel.bytes, recs))
  }

  function FlushesOf(parcels: seq<Parcel>, recs: seq<seq<Rec>>): (flushes: seq<Flush>)
    requires |parcels| == |recs|
    ensures |flushes| == |parcels|
    ensures forall k :: 0 <= k < |parcels| ==> flushes[k] == FlushOf(parcels[k], recs[k])
  {
    seq(|parcels|, k requires 0 <= k < |parcels| => FlushOf(parcels[k], recs[k]))
  }

  lemma OneGone(parcels: seq<Parcel>, recs: seq<seq<Rec>>, k: nat)
    requires k < |parcels| == |recs|
    ensures FlushesOf(parcels[..k] + parcels[k + 1..], recs[..k] + recs[k + 1..]) ==
            FlushesOf(parcels, recs)[..k] + FlushesOf(parcels, recs)[k + 1..]
  {
  }

  class Loop {
    const c: Config
    var buf: Bytes
    var ctx: Ctx
    var doneC: Option<nat>
    var parcels: seq<Parcel>
    var exited: bool
    ghost var dones: seq<nat>  // the invocations released so far, one per send on a done channel
    ghost var bufRecs: seq<Rec>
    ghost var parcelRecs: seq<seq<Rec>>
    ghost var received: seq<Rec>
    ghost var departed: seq<Departure>
    ghost var sinceStart: nat

    ghost predicate Valid()
      reads this
    {
      |parcelRecs| == |parcels|
    }

    /** The loop between two turns. */
    ghost function View(): Pusher
      requires Valid()
      reads this
    {
      Pusher(Chunk(buf, bufRecs), ctx, doneC, FlushesOf(parcels, parcelRecs), if exited then Exited else Selecting,
             received, departed, sinceStart)
    }

    constructor (c: Config)
      ensures Valid() && View() == INITIAL && this.c == c && dones == []
    {
      this.c := c;
      buf, ctx, doneC, parcels, exited := [], Background, None, [], false;
      dones, bufRecs, parcelRecs, received, departed, sinceStart := [], [], [], [], [], 0;
    }

    /** A push by the loop itself, whose payload leaves the buffer for good. */
    method PushAll(ok: bool)
      modifies this`buf, this`bufRecs, this`departed
      ensures buf == [] && bufRecs == []
      ensures departed == old(departed) + Depart(old(bufRecs), if ok then Delivered else LostToFailedPush)
    {
      departed := departed + Depart(bufRecs, if ok then Delivered else LostToFailedPush);
      buf, bufRecs := [], [];
    }

    /** Start a flush goroutine with the whole buffer. */
    method GoFlush()
      requires Valid()
      modifies this`buf, this`bufRecs, this`parcels, this`parcelRecs, this`sinceStart
      ensures Valid() && buf == [] && bufRecs == [] && sinceStart == 0
      ensures FlushesOf(parcels, parcelRecs) ==
              old(FlushesOf(parcels, parcelRecs)) + [Sending(ctx, Chunk(old(buf), old(bufRecs)))]
    {
      var payload := buf;
      buf := [];
      parcels := parcels + [Parcel(ctx, payload, false)];
      parcelRecs, bufRecs, sinceStart := parcelRecs + [bufRecs], [], 0;
    }

    method BytesIn(bytes: Bytes, ghost bodies: seq<Bytes>)
      requires Valid() && !exited
      modifies this
      ensures Valid() && View() == AfterTurn(c, old(View()), TBytes(bytes, bodies)) && dones == old(dones)
      ensures buf == old(buf) + bytes && ctx == old(ctx) && doneC == old(doneC) && parcels == old(parcels)
    {
      buf := buf + bytes;
      ghost var recs := Numbered(bodies, |received|);
      bufRecs, received, sinceStart := bufRecs + recs, received + recs, sinceStart + |bytes|;
    }

    method RuntimeDone(contextIsDone: bool, ok: bool)
      requires Valid() && !exited
      modifies this
      ensures Valid() && View() == AfterTurn(c, old(View()), TRuntimeDone(contextIsDone, ok)) && dones == old(dones)
      ensures ctx == old(ctx) && doneC == old(doneC)
      ensures buf == if c.flushAtNextInvoke then old(buf) else []
      ensures parcels == if c.flushAtNextInvoke || |old(buf)| == 0 || contextIsDone then old(parcels)
                         else old(parcels) + [Parcel(ctx, old(buf), false)]
    {
      if !c.flushAtNextInvoke {
        if |buf| > 0 {
          if contextIsDone {
            PushAll(ok);
          } else {
            GoFlush();
          }
        }
      }
    }

    method ContextDone(ok: bool)
      requires Valid() && !exited
      modifies this
      ensures Valid() && View() == AfterTurn(c, old(View()), TContextDone(ok)) && dones == old(dones)
      ensures buf == [] && ctx == Background && doneC == old(doneC) && parcels == old(parcels)
    {
      if |buf| > 0 {
        PushAll(ok);
      }
      ctx := Background;
    }

    method Invoke(inv: nat)
      requires Valid() && !exited
      modifies this
      ensures Valid() && View() == AfterTurn(c, old(View()), TInvoke(inv))
      ensures dones == if c.flushAtNextInvoke && |old(buf)| == 0 then old(dones) + [inv] else old(dones)
      ensures ctx == Of(inv) && doneC == if c.flushAtNextInvoke && |old(buf)| == 0 then None else Some(inv)
      ensures buf == if c.flushAtNextInvoke then [] else old(buf)
      ensures parcels == if c.flushAtNextInvoke && |old(buf)| > 0 then old(parcels) + [Parcel(ctx, old(buf), false)]
                         else old(parcels)
    {
      ctx := Of(inv);
      doneC := Some(inv);
      if c.flushAtNextInvoke {
        if |buf| == 0 {
          dones := dones + [inv];
          doneC := None;
        } else {
          GoFlush();
        }
      }
    }

    /** Flush goroutine k offers what is left of its payload. */
    method HandBack(k: nat, payload: Bytes, ghost recs: seq<Rec>)
      requires Valid() && k < |parcels|
      modifies this`parcels, this`parcelRecs
      ensures Valid()
      ensures FlushesOf(parcels, parcelRecs) ==
              old(FlushesOf(parcels, parcelRecs))[k := Replying(old(parcels[k].under), Chunk(payload, recs))]
    {
      parcels := parcels[k := Parcel(parcels[k].under, payload, true)];
      parcelRecs := parcelRecs[k := recs];
    }

    /** Flush goroutine k: its push has returned. */
    method FlushEnds(k: nat, ok: bool)
      requires Valid() && !exited && k < |parcels| && !parcels[k].replying
      modifies this
      ensures Valid() && View() == AfterTurn(c, old(View()), TFlushEnds(k, ok)) && dones == old(dones)
      ensures buf == old(buf) && ctx == old(ctx) && doneC == old(doneC)
    {
      ghost var load := Chunk(parcels[k].bytes, parcelRecs[k]);
      assert View().flushes[k] == Sending(parcels[k].under, load);
      if !ok {
        var kept, _ := CutOverflow(parcels[k].bytes, c.bufferSize);
        departed := departed + Depart(Dropped(load, c.bufferSize).recs, LostToOverflow);
        HandBack(k, kept, Retained(load, c.bufferSize).recs);
        return;
      }
      departed := departed + Depart(load.recs, Delivered);
      HandBack(k, [], []);
    }

    method FlushResponse(k: nat)
      requires Valid() && !exited && k < |parcels| && parcels[k].replying
      modifies this
      ensures Valid() && View() == AfterTurn(c, old(View()), TFlushResponse(k))
      ensures buf == old(parcels[k].bytes) + old(buf) && ctx == old(ctx) && doneC == None
      ensures dones == if old(doneC).Some? then old(dones) + [old(doneC).value] else old(dones)
    {
      var failedPayload := parcels[k].bytes;
      ghost var failedRecs := parcelRecs[k];
      OneGone(parcels, parcelRecs, k);
      parcels := parcels[..k] + parcels[k + 1..];
      parcelRecs := parcelRecs[..k] + parcelRecs[k + 1..];
      if |failedPayload| > 0 {
        buf := failedPayload + buf;
        bufRecs := failedRecs + bufRecs;
      }
      if doneC.Some? {
        dones := dones + [doneC.value];
      }
      doneC := None;
    }

    method Stop(ok: bool)
      requires Valid() && !exited
      modifies this
      ensures Valid() && View() == AfterTurn(c, old(View()), TStop(ok)) && exited
      ensures buf == [] && ctx == old(ctx) && parcels == old(parcels)
      ensures dones == if old(doneC).Some? then old(dones) + [old(doneC).value] else old(dones)
    {
      if |buf| > 0 {
        PushAll(ok);
      }
      if doneC.Some? {
        dones := dones + [doneC.value];
      }
      exited := true;
    }

    method ForceFlush(q: nat, ok: bool) returns (success: bool)
      requires Valid() && !exited
      modifies this
      ensures Valid() && View() == AfterTurn(c, old(View()), TForce(q, ok)) && dones == old(dones)
      ensures ctx == old(ctx) && doneC == old(doneC) && parcels == old(parcels)
      ensures success <==> ok || |old(buf)| == 0
      ensures |buf| == 0
    {
      success := false;
      if |buf| > 0 {
        PushAll(ok);
        success := ok;
      } else {
        success := true;
      }
    }

    method Take(t: Turn)
      requires Valid() && !exited && TurnPossible(View(), t)
      modifies this
      ensures Valid() && View() == AfterTurn(c, old(View()), t)
    {
      match t
      case TBytes(bytes, bodies) => BytesIn(bytes, bodies);
      case TRuntimeDone(contextIsDone, ok) => RuntimeDone(contextIsDone, ok);
      case TContextDone(ok) => ContextDone(ok);
      case TInvoke(inv) => Invoke(inv);
      case TFlushEnds(k, ok) => FlushEnds(k, ok);
      case TFlushResponse(k) => FlushResponse(k);
      case TForce(q, ok) => var _ := ForceFlush(q, ok);
      case TStop(ok) => Stop(ok);
    }

    /** The select loop over any sequence of turns, until a stop ends it. */
    method Run(turns: seq<Turn>)
      requires Valid() && !exited && TurnsPossible(c, View(), turns)
      modifies this
      ensures Valid() && View() == AfterTurns(c, old(View()), turns)
      ensures old(InOrder(View())) && ArrivalsFramed(turns) ==> InOrder(View())
      ensures exited <==> exists i :: 0 <= i < |turns| && turns[i].TStop?
    {
      ghost var start := View();
      var i := 0;
      while i < |turns| && !exited
        invariant i <= |turns| && Valid()
        invariant TurnsPossible(c, View(), turns[i..])
        invariant AfterTurns(c, View(), turns[i..]) == AfterTurns(c, start, turns)
      {
        assert turns[i..][1..] == turns[i + 1..];
        Take(turns[i]);
        i := i + 1;
      }
      TurnsInOrder(c, start, turns);
    }
  }
}
