/** The processor as the object it is: loops over events that update the buffer, the runtime-done flag, the current
    request id and the duration table. */
module ProcessorLoop {
  import opened Framing
  import opened Telemetry
  import opened Durations
  import opened Batches

  function Flatten(batches: seq<seq<Event>>): seq<Event> {
    if |batches| == 0 then [] else Flatten(batches[..|batches| - 1]) + batches[|batches| - 1]
  }

  class Processor {
    const codec: Codec
    var requestID: string
    var requestDurations: Table
    var runtimeDone: bool

    constructor (codec: Codec)
      ensures this.codec == codec && requestID == "" && requestDurations == map[] && !runtimeDone
    {
      this.codec := codec;
      requestID, requestDurations, runtimeDone := "", map[], false;
    }

    method Invoke(req: string)
      modifies this`requestID
      ensures requestID == req
    {
      requestID := req;
    }

    /** A start event opens its request, whatever was open under that id. */
    method ProcessStart(e: Event) returns (b: Option<Bytes>)
      requires e.kind.PlatformStart?
      modifies this`requestDurations
      ensures b == Record(codec, old(requestDurations), requestID, e)
      ensures requestDurations == Update(codec, old(requestDurations), e)
    {
      var id := TextField(e.record, "requestId");
      if id.None? {
        return None;
      }
      var start := codec.parseTime(e.time);
      if start.None? {
        return None;
      }
      requestDurations := requestDurations[id.value := Duration(start.value, ZERO_TIME)];
      return Some(codec.marshalLog(
        LogDoc(PlatformStart, id.value, START_STEP, e.time, "", "START RequestID: " + id.value)));
    }

    /** A report closes its request if it has a duration, and splits the time it was billed. */
    method ProcessReport(e: Event) returns (b: Option<Bytes>)
      requires e.kind.PlatformReport?
      modifies this`requestDurations
      ensures b == Record(codec, old(requestDurations), requestID, e)
      ensures requestDurations == Update(codec, old(requestDurations), e)
    {
      var metrics := Field(e.record, "metrics");
      if metrics.None? || !metrics.value.Object? {
        return None;
      }
      var id := TextField(e.record, "requestId");
      if id.None? {
        return None;
      }
      var duration := NumberField(metrics.value, "durationMs");
      var billed := NumberField(metrics.value, "billedDurationMs");
      var postRuntime: Option<real> := None;
      if id.value in requestDurations && duration.Some? {
        var open := requestDurations[id.value];
        postRuntime := Some(duration.value - Millis(Elapsed(open)) as real);
        requestDurations := requestDurations - {id.value};
      }
      var runtime: Option<real> := None;
      if duration.Some? && postRuntime.Some? {
        runtime := Some(OrZero(billed) - postRuntime.value);
      }
      var init := NumberField(metrics.value, "initDurationMs");
      b := codec.marshalMetric(
        MetricDoc(id.value, e.time, NonZero(duration), NonZero(billed), NonZero(init), runtime, postRuntime));
    }

    /** A runtime-done dates the end of its request if that is open, and is dropped if it cannot. */
    method ProcessRuntimeDone(e: Event) returns (b: Option<Bytes>)
      requires e.kind.PlatformRuntimeDone?
      modifies this`requestDurations
      ensures b == Record(codec, old(requestDurations), requestID, e)
      ensures requestDurations == Update(codec, old(requestDurations), e)
    {
      var id := TextField(e.record, "requestId");
      if id.None? {
        return None;
      }
      if id.value in requestDurations {
        var end := codec.parseTime(e.time);
        if end.None? {
          return None;
        }
        requestDurations := requestDurations[id.value := requestDurations[id.value].(end := end.value)];
      }
      var status := TextField(e.record, "status");
      var text := "";
      if status.Some? {
        text := status.value;
      }
      return Some(codec.marshalLog(
        LogDoc(PlatformRuntimeDone, id.value, END_STEP, e.time, text, "END RequestID: " + requestID)));
    }

    /** Process one event, kind by kind: its record, if it has one, and its effect on the table. */
    method ProcessEvent(e: Event) returns (b: Option<Bytes>)
      modifies this`requestDurations
      ensures b == Record(codec, old(requestDurations), requestID, e)
      ensures requestDurations == Update(codec, old(requestDurations), e)
    {
      match e.kind {
        case PlatformStart => b := ProcessStart(e);
        case Function =>
          if !e.record.Text? {
            return None;
          }
          var message := codec.trim(e.record.s);
          b := Some(codec.marshalLog(LogDoc(Function, requestID, "", e.time, "", message)));
        case PlatformReport => b := ProcessReport(e);
        case PlatformRuntimeDone => b := ProcessRuntimeDone(e);
        case Other(_) => b := None;
      }
    }

    /** Process one event and append its record, if it has one, to the buffer. */
    method WriteEvent(e: Event, buf: Bytes, ghost bodies: seq<Bytes>, ghost flag: bool)
      returns (buf': Bytes, ghost bodies': seq<Bytes>)
      requires buf == Frame(bodies)
      modifies this`requestDurations
      ensures buf' == Frame(bodies')
      ensures Step(codec, requestID, Progress(old(requestDurations), bodies, flag), e)
              == Progress(requestDurations, bodies', if e.kind.Function? then flag else EndsCurrent(e, requestID))
    {
      buf', bodies' := buf, bodies;
      var b := ProcessEvent(e);
      if b.Some? {
        FrameConcat(bodies, [b.value]);
        FrameOne(b.value);
        buf', bodies' := buf + b.value + [SEP], bodies + [b.value];
      }
    }

    /** One batch: the bytes for the pusher, and whether the runtime-done signal follows them. */
    method Batch(events: seq<Event>) returns (buf: Bytes, signalled: bool)
      requires !runtimeDone
      modifies this
      ensures var r := Process(codec, old(requestID), old(requestDurations), events);
              && buf == Frame(r.bodies)
              && signalled == r.runtimeDone
              && requestDurations == r.table
              && requestID == (if r.runtimeDone then "" else old(requestID))
      ensures !runtimeDone
    {
      buf := [];
      ghost var table, bodies := requestDurations, [];
      var i := 0;
      while i < |events|
        invariant i <= |events| && requestID == old(requestID)
        invariant Process(codec, requestID, table, events[..i]) == Progress(requestDurations, bodies, runtimeDone)
        invariant buf == Frame(bodies)
      {
        var e := events[i];
        assert events[..i + 1][..i] == events[..i];
        ghost var flag := runtimeDone;
        if e.kind != Function {
          runtimeDone := EndsCurrent(e, requestID);
        }
        buf, bodies := WriteEvent(e, buf, bodies, flag);
        i := i + 1;
      }
      assert events[..i] == events;
      signalled := runtimeDone;
      if runtimeDone {
        requestID := "";
        runtimeDone := false;
      }
    }

    /** The inner loop of the drain: one more batch after the events of `seen`. */
    method DrainBatch(events: seq<Event>, buf: Bytes, ghost table: Table, ghost seen: seq<Event>)
      returns (buf': Bytes)
      requires Process(codec, requestID, table, seen).table == requestDurations
      requires buf == Frame(Process(codec, requestID, table, seen).bodies)
      modifies this`requestDurations
      ensures Process(codec, requestID, table, seen + events).table == requestDurations
      ensures buf' == Frame(Process(codec, requestID, table, seen + events).bodies)
    {
      buf' := buf;
      var j := 0;
      assert seen + events[..0] == seen;
      while j < |events|
        invariant j <= |events|
        invariant Process(codec, requestID, table, seen + events[..j]).table == requestDurations
        invariant buf' == Frame(Process(codec, requestID, table, seen + events[..j]).bodies)
      {
        ghost var r, next := Process(codec, requestID, table, seen + events[..j]), seen + events[..j + 1];
        assert next[..|next| - 1] == seen + events[..j] && next[|next| - 1] == events[j];
        ghost var bodies;
        buf', bodies := WriteEvent(events[j], buf', r.bodies, r.runtimeDone);
        j := j + 1;
      }
      assert events[..j] == events;
    }

    /** The drain loop of Stop, over the batches still to be received from the closed channel. */
    method Drain(batches: seq<seq<Event>>) returns (buf: Bytes)
      modifies this`requestDurations
      ensures var r := Process(codec, requestID, old(requestDurations), Flatten(batches));
              buf == Frame(r.bodies) && requestDurations == r.table
      ensures batches == [] ==> buf == []
    {
      buf := [];
      ghost var table := requestDurations;
      var i := 0;
      while i < |batches|
        invariant i <= |batches|
        invariant Process(codec, requestID, table, Flatten(batches[..i])).table == requestDurations
        invariant buf == Frame(Process(codec, requestID, table, Flatten(batches[..i])).bodies)
      {
        buf := DrainBatch(batches[i], buf, table, Flatten(batches[..i]));
        assert batches[..i + 1][..i] == batches[..i];
        i := i + 1;
      }
      assert batches[..i] == batches;
    }

    /** The main loop over any sequence of batches and invokes: the replay of its inputs. */
    method Run(inputs: seq<Input>) returns (out: Bytes)
      requires !runtimeDone && requestID == "" && requestDurations == map[]
      modifies this
      ensures var r := Replay(codec, inputs);
              requestID == r.reqId && requestDurations == r.table && out == Frame(r.out)
    {
      out := [];
      var i := 0;
      while i < |inputs|
        invariant i <= |inputs| && !runtimeDone
        invariant var r := Replay(codec, inputs[..i]);
                  requestID == r.reqId && requestDurations == r.table && out == Frame(r.out)
      {
        ghost var r := Replay(codec, inputs[..i]);
        assert inputs[..i + 1][..i] == inputs[..i];
        match inputs[i] {
          case TookInvoke(req) => Invoke(req);
          case TookBatch(_, events) =>
            var buf, signalled := Batch(events);
            FrameConcat(r.out, Process(codec, r.reqId, r.table, events).bodies);
            out := out + buf;
        }
        i := i + 1;
      }
      assert inputs[..i] == inputs;
    }
  }
}
