/** The sequential side of the worker and the producer: what they call, in which order, and what they answer. */
module WorkerCalls {
  import opened Framing
  import opened Telemetry

  datatype Call =
    | InvokePusher(inv: nat)
    | InvokeProcessor(req: string)
    | ForceFlush
    | ShutdownProducer
    | StopProcessor
    | StopPusher

  /** What NextEvent returns, and for an Invoke event whether the context ends it before done does. */
  datatype Next = AnInvoke(req: string, expires: bool) | AShutdown | Unparseable | Unexpected | Fails

  const STOP_CALLS: seq<Call> := [ShutdownProducer, StopProcessor, StopPusher]

  function InvokeCalls(inv: nat, req: string, expires: bool): seq<Call> {
    [InvokePusher(inv), InvokeProcessor(req)] + if expires then [ForceFlush] else []
  }

  /** The calls of the event loop: one Invoke at a time, up to a Shutdown or a failure. */
  function LoopCalls(events: seq<Next>, inv: nat, stopping: bool): seq<Call> {
    if |events| == 0 then []
    else match events[0]
      case AnInvoke(req, expires) => InvokeCalls(inv, req, expires) + LoopCalls(events[1..], inv + 1, stopping)
      case AShutdown => if stopping then [] else STOP_CALLS
      case Fails => []
      case _ => LoopCalls(events[1..], inv, stopping)
  }

  class Worker {
    var stopping: bool
    var calls: seq<Call>
    var nextInv: nat

    constructor ()
      ensures !stopping && calls == [] && nextInv == 0
    {
      stopping, calls, nextInv := false, [], 0;
    }

    method Invoke(req: string, expires: bool)
      modifies this`calls, this`nextInv
      ensures calls == old(calls) + InvokeCalls(old(nextInv), req, expires)
      ensures nextInv == old(nextInv) + 1
    {
      var inv := nextInv;
      nextInv := nextInv + 1;
      calls := calls + [InvokePusher(inv)];
      calls := calls + [InvokeProcessor(req)];
      if expires {
        calls := calls + [ForceFlush];
      }
    }

    /** The compare-and-swap on stopping: the first caller alone takes the components down, in order. */
    method Stop() returns (ran: bool)
      modifies this`stopping, this`calls
      ensures ran == !old(stopping) && stopping
      ensures calls == if ran then old(calls) + STOP_CALLS else old(calls)
    {
      ran := !stopping;
      if ran {
        stopping := true;
        calls := calls + [ShutdownProducer];
        calls := calls + [StopProcessor];
        calls := calls + [StopPusher];
      }
    }

    method HandleInvocations(events: seq<Next>)
      modifies this
      ensures calls == old(calls) + LoopCalls(events, old(nextInv), old(stopping))
    {
      var i := 0;
      ghost var rest := LoopCalls(events, nextInv, stopping);
      while i < |events|
        invariant i <= |events| && stopping == old(stopping)
        invariant calls + LoopCalls(events[i..], nextInv, stopping) == old(calls) + rest
      {
        assert events[i..][1..] == events[i + 1..];
        match events[i] {
          case AnInvoke(req, expires) => Invoke(req, expires);
          case AShutdown =>
            var _ := Stop();
            return;
          case Fails => return;
          case Unparseable =>
          case Unexpected =>
        }
        i := i + 1;
      }
    }
  }

  /** The processor is invoked right after the pusher, and never otherwise. */
  predicate InPairs(cs: seq<Call>) {
    && (forall i :: 0 <= i < |cs| && cs[i].InvokePusher? ==> i + 1 < |cs| && cs[i + 1].InvokeProcessor?)
    && (forall i :: 0 <= i < |cs| && cs[i].InvokeProcessor? ==> 0 < i && cs[i - 1].InvokePusher?)
  }

  /** The components are taken down last and once, producer before processor before pusher. */
  predicate StopsLast(cs: seq<Call>) {
    forall i :: 0 <= i < |cs| && (cs[i].ShutdownProducer? || cs[i].StopProcessor? || cs[i].StopPusher?) ==>
      |cs| >= 3 && i >= |cs| - 3 && cs[|cs| - 3..] == STOP_CALLS
  }

  lemma InPairsConcat(a: seq<Call>, b: seq<Call>)
    requires InPairs(a) && InPairs(b)
    ensures InPairs(a + b)
  {
    var cs := a + b;
    forall i | 0 <= i < |cs| && cs[i].InvokePusher?
      ensures i + 1 < |cs| && cs[i + 1].InvokeProcessor?
    {
      if i >= |a| { assert cs[i] == b[i - |a|] && cs[i + 1] == b[i - |a| + 1]; }
    }
    forall i | 0 <= i < |cs| && cs[i].InvokeProcessor?
      ensures 0 < i && cs[i - 1].InvokePusher?
    {
      if i >= |a| { assert cs[i] == b[i - |a|] && cs[i - 1] == b[i - |a| - 1]; }
    }
  }

  lemma StopsLastConcat(a: seq<Call>, b: seq<Call>)
    requires StopsLast(b)
    requires forall i :: 0 <= i < |a| ==> !a[i].ShutdownProducer? && !a[i].StopProcessor? && !a[i].StopPusher?
    ensures StopsLast(a + b)
  {
    var cs := a + b;
    forall i | 0 <= i < |cs| && (cs[i].ShutdownProducer? || cs[i].StopProcessor? || cs[i].StopPusher?)
      ensures |cs| >= 3 && i >= |cs| - 3 && cs[|cs| - 3..] == STOP_CALLS
    {
      assert i >= |a| && cs[i] == b[i - |a|];
      assert cs[|cs| - 3..] == b[|b| - 3..];
    }
  }

  lemma {:induction false} LoopCallsAreOrdered(events: seq<Next>, inv: nat, stopping: bool)
    ensures InPairs(LoopCalls(events, inv, stopping))
    ensures StopsLast(LoopCalls(events, inv, stopping))
  {
    if |events| > 0 {
      match events[0]
      case AnInvoke(req, expires) =>
        LoopCallsAreOrdered(events[1..], inv + 1, stopping);
        InPairsConcat(InvokeCalls(inv, req, expires), LoopCalls(events[1..], inv + 1, stopping));
        StopsLastConcat(InvokeCalls(inv, req, expires), LoopCalls(events[1..], inv + 1, stopping));
      case AShutdown =>
      case Fails =>
      case Unparseable => LoopCallsAreOrdered(events[1..], inv, stopping);
      case Unexpected => LoopCallsAreOrdered(events[1..], inv, stopping);
    }
  }

  /** An event that does not parse, or of a kind not expected, changes no call: it might as well not have come. */
  lemma {:induction false} LoopSkips(a: seq<Next>, e: Next, b: seq<Next>, inv: nat, stopping: bool)
    requires e.Unparseable? || e.Unexpected?
    ensures LoopCalls(a + [e] + b, inv, stopping) == LoopCalls(a + b, inv, stopping)
  {
    if |a| == 0 {
      assert (a + [e] + b)[1..] == a + b;
    } else {
      assert (a + [e] + b)[1..] == a[1..] + [e] + b && (a + b)[1..] == a[1..] + b;
      LoopSkips(a[1..], e, b, if a[0].AnInvoke? then inv + 1 else inv, stopping);
    }
  }

  /** What a handler does that others can see: hand a batch to the processor, write a status. */
  datatype Act = HandedOver(events: seq<Event>) | Wrote(status: int)

  /** A 200 is written only right after a batch was handed over, and a batch handed over is answered by one. */
  predicate AnsweredAfter(acts: seq<Act>) {
    && (forall i :: 0 <= i < |acts| && acts[i] == Wrote(200) ==> 0 < i && acts[i - 1].HandedOver?)
    && (forall i :: 0 <= i < |acts| && acts[i].HandedOver? ==> i + 1 < |acts| && acts[i + 1] == Wrote(200))
  }

  /** The producer, one request at a time. */
  class Producer {
    var acts: seq<Act>

    constructor ()
      ensures acts == []
    {
      acts := [];
    }

    /** body is None when reading the request fails. */
    method HandleLogs(body: Option<Bytes>, decode: Bytes -> Option<seq<Event>>) returns (status: int)
      requires AnsweredAfter(acts)
      modifies this`acts
      ensures status == 200 || status == 400
      ensures status == 200 <==> body.Some? && decode(body.value).Some?
      ensures acts == old(acts) + (if status == 200 then [HandedOver(decode(body.value).value), Wrote(200)]
                                   else [Wrote(400)])
      ensures AnsweredAfter(acts)
    {
      if body.None? {
        acts := acts + [Wrote(400)];
        return 400;
      }
      var events := decode(body.value);
      if events.None? {
        acts := acts + [Wrote(400)];
        return 400;
      }
      acts := acts + [HandedOver(events.value)];
      acts := acts + [Wrote(200)];
      return 200;
    }
  }
}
