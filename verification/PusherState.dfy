/** The state of the pusher's select loop and what each branch does to it. */
module PusherState {
  import opened Framing
  import opened Overflow
  import opened Telemetry

  /** A record the pusher received, numbered in order of arrival. */
  datatype Rec = Rec(tag: nat, body: Bytes)

  /** Bytes together with the records they came from. No branch looks at recs. */
  datatype Chunk = Chunk(bytes: Bytes, recs: seq<Rec>)

  const EMPTY := Chunk([], [])

  datatype Fate = Delivered | LostToOverflow | LostToFailedPush

  datatype Departure = Departure(rec: Rec, fate: Fate)

  datatype Ctx = Background | Of(inv: nat)

  /** A flush goroutine: pushing its payload, or blocked handing back what is left of it. */
  datatype Flush = Sending(under: Ctx, load: Chunk) | Replying(under: Ctx, load: Chunk)

  /** Why the loop itself is inside push. */
  datatype Job = ForRuntimeDone | ForContextDone | ForForce(q: nat) | ForStop

  datatype Pc =
    | Selecting
    | Pushing(job: Job, load: Chunk)
    | SendingDone(thenStop: bool)
    | SendingStopped
    | Exited

  datatype Config = Config(flushAtNextInvoke: bool, bufferSize: nat, codec: Codec)

  /** received, departed and sinceStart (bytes that arrived since the last flush began) are history. */
  datatype Pusher = Pusher(buf: Chunk, ctx: Ctx, doneC: Option<nat>, flushes: seq<Flush>, pc: Pc,
                           received: seq<Rec>, departed: seq<Departure>, sinceStart: nat)

  const INITIAL := Pusher(EMPTY, Background, None, [], Selecting, [], [], 0)

  function Join(a: Chunk, b: Chunk): Chunk {
    Chunk(a.bytes + b.bytes, a.recs + b.recs)
  }

  function Bodies(recs: seq<Rec>): (bodies: seq<Bytes>)
    ensures |bodies| == |recs|
    ensures forall i :: 0 <= i < |recs| ==> bodies[i] == recs[i].body
  {
    seq(|recs|, i requires 0 <= i < |recs| => recs[i].body)
  }

  function Numbered(bodies: seq<Bytes>, from: nat): (recs: seq<Rec>)
    ensures |recs| == |bodies|
    ensures forall i :: 0 <= i < |bodies| ==> recs[i] == Rec(from + i, bodies[i])
  {
    seq(|bodies|, i requires 0 <= i < |bodies| => Rec(from + i, bodies[i]))
  }

  function Depart(recs: seq<Rec>, fate: Fate): (ds: seq<Departure>)
    ensures |ds| == |recs|
    ensures forall i :: 0 <= i < |recs| ==> ds[i] == Departure(recs[i], fate)
  {
    seq(|recs|, i requires 0 <= i < |recs| => Departure(recs[i], fate))
  }

  function Recs(ds: seq<Departure>): (recs: seq<Rec>)
    ensures |recs| == |ds|
    ensures forall i :: 0 <= i < |ds| ==> recs[i] == ds[i].rec
  {
    seq(|ds|, i requires 0 <= i < |ds| => ds[i].rec)
  }

  /** The two parts of a failed payload. */
  function Dropped(load: Chunk, limit: nat): Chunk {
    var k := CutIndex(load.bytes, limit);
    var c := if |load.bytes| <= limit then 0 else CutCount(Bodies(load.recs), limit / 10);
    Chunk(load.bytes[..k], load.recs[..c])
  }

  function Retained(load: Chunk, limit: nat): Chunk {
    var k := CutIndex(load.bytes, limit);
    var c := if |load.bytes| <= limit then 0 else CutCount(Bodies(load.recs), limit / 10);
    Chunk(load.bytes[k..], load.recs[c..])
  }

  // The branches of the select loop, each up to the next point where the loop can block.

  function Receive(p: Pusher, bytes: Bytes, bodies: seq<Bytes>): Pusher {
    var recs := Numbered(bodies, |p.received|);
    p.(buf := Join(p.buf, Chunk(bytes, recs)), received := p.received + recs, sinceStart := p.sinceStart + |bytes|)
  }

  /** The whole buffer leaves with a new flush goroutine. */
  function StartFlush(p: Pusher): Pusher {
    p.(flushes := p.flushes + [Sending(p.ctx, p.buf)], buf := EMPTY, sinceStart := 0)
  }

  /** The whole buffer is pushed by the loop itself. */
  function StartPush(p: Pusher, job: Job): Pusher {
    p.(pc := Pushing(job, p.buf), buf := EMPTY)
  }

  function TakeRuntimeDone(c: Config, p: Pusher, contextIsDone: bool): Pusher {
    if c.flushAtNextInvoke || |p.buf.bytes| == 0 then p
    else if contextIsDone then StartPush(p, ForRuntimeDone)
    else StartFlush(p)
  }

  function TakeContextDone(p: Pusher): Pusher {
    if |p.buf.bytes| > 0 then StartPush(p, ForContextDone) else p.(ctx := Background)
  }

  function TakeInvoke(c: Config, p: Pusher, inv: nat): Pusher {
    var p1 := p.(ctx := Of(inv), doneC := Some(inv));
    if !c.flushAtNextInvoke then p1
    else if |p.buf.bytes| == 0 then p1.(pc := SendingDone(false))
    else StartFlush(p1)
  }

  function TakeReply(p: Pusher, k: nat): Pusher
    requires k < |p.flushes|
  {
    var load := p.flushes[k].load;
    var p1 := p.(flushes := p.flushes[..k] + p.flushes[k + 1..],
                 buf := if |load.bytes| > 0 then Join(load, p.buf) else p.buf);
    if p.doneC.Some? then p1.(pc := SendingDone(false)) else p1
  }

  function FinishStop(p: Pusher): Pusher {
    p.(pc := if p.doneC.Some? then SendingDone(true) else SendingStopped)
  }

  function TakeStop(p: Pusher): Pusher {
    if |p.buf.bytes| > 0 then StartPush(p, ForStop) else FinishStop(p)
  }

  function TakeForce(p: Pusher, q: nat): Pusher {
    if |p.buf.bytes| > 0 then StartPush(p, ForForce(q)) else p
  }

  /** A push by the loop itself returns: delivered or discarded. */
  function PushReturns(p: Pusher, ok: bool): Pusher
    requires p.pc.Pushing?
  {
    var p1 := p.(departed := p.departed + Depart(p.pc.load.recs, if ok then Delivered else LostToFailedPush),
                 pc := Selecting);
    match p.pc.job
    case ForRuntimeDone => p1
    case ForContextDone => p1.(ctx := Background)
    case ForForce(_) => p1
    case ForStop => FinishStop(p1)
  }

  /** The push of flush goroutine k returns: delivered, or cut to size and kept. */
  function FlushReturns(c: Config, p: Pusher, k: nat, ok: bool): Pusher
    requires k < |p.flushes|
  {
    var f := p.flushes[k];
    if ok then
      p.(flushes := p.flushes[k := Replying(f.under, EMPTY)], departed := p.departed + Depart(f.load.recs, Delivered))
    else
      p.(flushes := p.flushes[k := Replying(f.under, Retained(f.load, c.bufferSize))],
         departed := p.departed + Depart(Dropped(f.load, c.bufferSize).recs, LostToOverflow))
  }

  function DoneSent(p: Pusher): Pusher
    requires p.pc.SendingDone?
  {
    if p.pc.thenStop then p.(pc := SendingStopped) else p.(pc := Selecting, doneC := None)
  }

  function StoppedSent(p: Pusher): Pusher {
    p.(pc := Exited)
  }
}
