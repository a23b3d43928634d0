/** What the processor makes of a batch of events, and of a whole sequence of batches and invokes. */
module Batches {
  import opened Framing
  import opened Telemetry
  import opened Durations

  const START_STEP := "START"
  const END_STEP := "END"

  function EndDoc(requestId: string, current: string, time: string, status: string): LogDoc {
    LogDoc(PlatformRuntimeDone, requestId, END_STEP, time, status, "END RequestID: " + current)
  }

  /** The record written for one event; None when the event is skipped or rejected. */
  function Record(codec: Codec, t: Table, current: string, e: Event): Option<Bytes> {
    match e.kind
    case PlatformStart =>
      (match StartOf(codec, e)
       case Some((r, _)) =>
         Some(codec.marshalLog(LogDoc(PlatformStart, r, START_STEP, e.time, "", "START RequestID: " + r)))
       case None => None)
    case Function =>
      if !e.record.Text? then None
      else Some(codec.marshalLog(LogDoc(Function, current, "", e.time, "", codec.trim(e.record.s))))
    case PlatformReport =>
      (match ReportOf(e)
       case Some(rep) => codec.marshalMetric(Metric(t, rep, e.time))
       case None => None)
    case PlatformRuntimeDone =>
      (match RequestId(e)
       case Some(r) =>
         if r in t && codec.parseTime(e.time).None? then None
         else
           var status := TextField(e.record, "status");
           Some(codec.marshalLog(EndDoc(r, current, e.time, if status.Some? then status.value else "")))
       case None => None)
    case Other(_) => None
  }

  /** The locals of the batch loop: the table, the records written, and the runtime-done flag. */
  datatype Progress = Progress(table: Table, bodies: seq<Bytes>, runtimeDone: bool)

  function Step(codec: Codec, current: string, acc: Progress, e: Event): Progress {
    var rec := Record(codec, acc.table, current, e);
    Progress(Update(codec, acc.table, e),
             if rec.Some? then acc.bodies + [rec.value] else acc.bodies,
             if e.kind.Function? then acc.runtimeDone else EndsCurrent(e, current))
  }

  function Process(codec: Codec, current: string, table: Table, events: seq<Event>): Progress {
    if |events| == 0 then Progress(table, [], false)
    else Step(codec, current, Process(codec, current, table, events[..|events| - 1]), events[|events| - 1])
  }

  // What each record contains, in terms of its event.

  /** Without a request id a platform event is rejected. */
  lemma NamelessRecord(codec: Codec, t: Table, current: string, e: Event)
    requires !e.kind.Function? && forall r :: !HasText(e.record, "requestId", r)
    ensures Record(codec, t, current, e) == None
  {
    FieldsMean(e.record, "requestId");
  }

  /** And events of other kinds write nothing. */
  lemma OtherRecord(codec: Codec, t: Table, current: string, e: Event)
    requires e.kind.Other?
    ensures Record(codec, t, current, e) == None && Update(codec, t, e) == t
  {
  }

  lemma StartRecord(codec: Codec, t: Table, current: string, e: Event, r: string)
    requires e.kind.PlatformStart? && HasText(e.record, "requestId", r)
    ensures Record(codec, t, current, e) ==
            if codec.parseTime(e.time).None? then None
            else Some(codec.marshalLog(LogDoc(PlatformStart, r, "START", e.time, "", "START RequestID: " + r)))
  {
    FieldsMean(e.record, "requestId");
  }

  /** A function log carries the current request and its own text, trimmed. */
  lemma FunctionRecord(codec: Codec, t: Table, current: string, e: Event, text: string)
    requires e.kind.Function?
    ensures e.record == Text(text) ==>
              Record(codec, t, current, e) ==
              Some(codec.marshalLog(LogDoc(Function, current, "", e.time, "", codec.trim(text))))
    ensures !e.record.Text? ==> Record(codec, t, current, e) == None
  {
  }

  /** An END record names the event's request in its field and the current one in its message. */
  lemma EndRecord(codec: Codec, t: Table, current: string, e: Event, r: string, status: string)
    requires e.kind.PlatformRuntimeDone? && HasText(e.record, "requestId", r)
    requires HasText(e.record, "status", status) || (status == "" && forall v :: !HasText(e.record, "status", v))
    ensures Record(codec, t, current, e) ==
            if r in t && codec.parseTime(e.time).None? then None
            else
              Some(codec.marshalLog(LogDoc(PlatformRuntimeDone, r, "END", e.time, status, "END RequestID: " + current)))
  {
    FieldsMean(e.record, "requestId");
    FieldsMean(e.record, "status");
  }

  /** A metric as the record shows it: a number other than zero. */
  function Shown(m: Json, key: string): Option<real> {
    if HasNumber(m, key) && m.fields[key].n != 0.0 then Some(m.fields[key].n) else None
  }

  function NumberOrZero(m: Json, key: string): real {
    if HasNumber(m, key) then m.fields[key].n else 0.0
  }

  /** The metric record of a report for r with metrics m, against the table before it. */
  ghost predicate Measures(t: Table, e: Event, r: string, m: Json, doc: MetricDoc) {
    && doc.requestId == r && doc.time == e.time
    && doc.duration == Shown(m, "durationMs")
    && doc.billed == Shown(m, "billedDurationMs")
    && doc.init == Shown(m, "initDurationMs")
    && (if r in t && HasNumber(m, "durationMs") then
          exists ns :: Saturated(t[r].end - t[r].start, ns)
                       && SplitsAt(doc, m.fields["durationMs"].n, NumberOrZero(m, "billedDurationMs"), ns)
        else doc.runtime == None && doc.postRuntime == None)
  }

  lemma ReportMeasures(t: Table, e: Event, r: string, m: Json)
    requires Reports(e, r, m)
    ensures ReportOf(e).Some? && Measures(t, e, r, m, Metric(t, ReportOf(e).value, e.time))
  {
    FieldsMean(e.record, "requestId");
    FieldsMean(m, "durationMs");
    FieldsMean(m, "billedDurationMs");
    FieldsMean(m, "initDurationMs");
    var rep := ReportOf(e).value;
    assert rep.id == r;
    if r in t && HasNumber(m, "durationMs") {
      var ns, doc := Elapsed(t[r]), Metric(t, rep, e.time);
      ElapsedSaturates(t[r]);
      MetricOfEntry(t, rep, e.time, ns);
      assert NumberOrZero(m, "billedDurationMs") == if rep.billed.Some? then rep.billed.value else 0.0;
      assert SplitsAt(doc, m.fields["durationMs"].n, NumberOrZero(m, "billedDurationMs"), ns);
    }
  }

  /** A report's record is the metric measured against the table before it, and every report without metrics is
      rejected. */
  lemma ReportRecord(codec: Codec, t: Table, current: string, e: Event, r: string)
    requires e.kind.PlatformReport? && HasText(e.record, "requestId", r)
    ensures forall m :: Reports(e, r, m) ==>
              exists doc :: Record(codec, t, current, e) == codec.marshalMetric(doc) && Measures(t, e, r, m, doc)
    ensures (forall m :: !Reports(e, r, m)) ==> Record(codec, t, current, e) == None
  {
    FieldsMean(e.record, "requestId");
    if ReportOf(e).Some? {
      var m := e.record.fields["metrics"];
      assert Reports(e, r, m);
      ReportMeasures(t, e, r, m);
    }
  }

  // The records of a batch: each event's own, in the order of the events.

  function AsSeq(rec: Option<Bytes>): seq<Bytes> {
    if rec.Some? then [rec.value] else []
  }

  /** The records of the events one after the other, each against the table its predecessors leave. */
  function RecordsOf(codec: Codec, current: string, t: Table, events: seq<Event>): seq<Bytes>
    decreases |events|
  {
    if |events| == 0 then []
    else
      AsSeq(Record(codec, t, current, events[0]))
      + RecordsOf(codec, current, Update(codec, t, events[0]), events[1..])
  }

  lemma {:induction false} ProcessTable(codec: Codec, current: string, table: Table, events: seq<Event>)
    ensures Process(codec, current, table, events).table == TableAfter(codec, table, events)
  {
    if |events| > 0 {
      ProcessTable(codec, current, table, events[..|events| - 1]);
    }
  }

  lemma {:induction false} ProcessConcat(codec: Codec, current: string, t: Table, a: seq<Event>, b: seq<Event>)
    ensures Process(codec, current, t, a + b).bodies ==
            Process(codec, current, t, a).bodies + Process(codec, current, TableAfter(codec, t, a), b).bodies
  {
    if |b| == 0 {
      assert a + b == a;
    } else {
      var n := |b| - 1;
      assert (a + b)[..|a + b| - 1] == a + b[..n] && (a + b)[|a + b| - 1] == b[n];
      ProcessConcat(codec, current, t, a, b[..n]);
      ProcessTable(codec, current, t, a + b[..n]);
      ProcessTable(codec, current, TableAfter(codec, t, a), b[..n]);
      TableAfterConcat(codec, t, a, b[..n]);
    }
  }

  lemma ProcessOne(codec: Codec, current: string, t: Table, e: Event)
    ensures Process(codec, current, t, [e]).bodies == AsSeq(Record(codec, t, current, e))
    ensures TableAfter(codec, t, [e]) == Update(codec, t, e)
  {
    assert [e][..0] == [];
    assert Process(codec, current, t, [e][..0]) == Progress(t, [], false);
  }

  /** A batch's records are its events' records: each once, in event order, none besides. */
  lemma {:induction false} BatchInEventOrder(codec: Codec, current: string, t: Table, events: seq<Event>)
    ensures Process(codec, current, t, events).bodies == RecordsOf(codec, current, t, events)
    decreases |events|
  {
    if |events| > 0 {
      assert [events[0]] + events[1..] == events;
      ProcessConcat(codec, current, t, [events[0]], events[1..]);
      ProcessOne(codec, current, t, events[0]);
      BatchInEventOrder(codec, current, Update(codec, t, events[0]), events[1..]);
    }
  }

  lemma {:induction false} ProcessWritesClean(codec: Codec, current: string, table: Table, events: seq<Event>)
    requires codec.Sound()
    ensures AllClean(Process(codec, current, table, events).bodies)
  {
    if |events| > 0 {
      ProcessWritesClean(codec, current, table, events[..|events| - 1]);
    }
  }

  /** i is the last event of the batch that is no function log. */
  predicate LastPlatform(events: seq<Event>, i: nat) {
    && i < |events|
    && !events[i].kind.Function?
    && forall j :: i < j < |events| ==> events[j].kind.Function?
  }

  /** A batch is signalled exactly when its last non-function event is a runtimeDone of the current request. */
  lemma {:induction false} SignalIffLastPlatformEnds(codec: Codec, current: string, table: Table, events: seq<Event>)
    ensures Process(codec, current, table, events).runtimeDone <==>
            exists i: nat :: LastPlatform(events, i) && RuntimeDoneOf(events[i], current)
  {
    if |events| > 0 {
      var n := |events| - 1;
      var shorter := events[..n];
      EndsCurrentMeans(events[n], current);
      SignalIffLastPlatformEnds(codec, current, table, shorter);
      if events[n].kind.Function? {
        forall i: nat | i < n
          ensures LastPlatform(events, i) <==> LastPlatform(shorter, i)
          ensures events[i] == shorter[i]
        {
          if LastPlatform(shorter, i) {
            forall j | i < j < |events|
              ensures events[j].kind.Function?
            {
              if j < n { assert shorter[j] == events[j]; }
            }
          }
          assert forall j :: 0 <= j < n ==> shorter[j] == events[j];
        }
      } else {
        assert LastPlatform(events, n);
      }
    }
  }

  ghost predicate IsEndRecord(codec: Codec, body: Bytes, requestId: string) {
    exists time: string, status: string :: body == codec.marshalLog(EndDoc(requestId, requestId, time, status))
  }

  predicate Parseable(codec: Codec, events: seq<Event>) {
    forall i :: 0 <= i < |events| ==> codec.parseTime(events[i].time).Some?
  }

  /** A signalled batch carries the END record of the request it signals, if its timestamps parse. */
  lemma {:induction false} SignalledBatchHasEnd(codec: Codec, current: string, table: Table, events: seq<Event>)
    requires Parseable(codec, events)
    requires Process(codec, current, table, events).runtimeDone
    ensures current != ""
    ensures exists body :: body in Process(codec, current, table, events).bodies && IsEndRecord(codec, body, current)
  {
    var n := |events| - 1;
    var before := Process(codec, current, table, events[..n]);
    var after := Process(codec, current, table, events);
    if events[n].kind.Function? {
      SignalledBatchHasEnd(codec, current, table, events[..n]);
      var body :| body in before.bodies && IsEndRecord(codec, body, current);
      assert body in after.bodies;
    } else {
      var status := TextField(events[n].record, "status");
      var body := codec.marshalLog(EndDoc(current, current, events[n].time, if status.Some? then status.value else ""));
      assert Record(codec, before.table, current, events[n]) == Some(body);
      assert body in after.bodies;
    }
  }

  /** What the processor accepts between its blocking sends: a batch from handler h, or an invoke. */
  datatype Input = TookBatch(h: nat, events: seq<Event>) | TookInvoke(req: string)

  /** The processor after handling its inputs in order, and every record it wrote meanwhile. */
  datatype Replayed = Replayed(reqId: string, table: Table, out: seq<Bytes>)

  function Replay(codec: Codec, inputs: seq<Input>): Replayed {
    if |inputs| == 0 then Replayed("", map[], [])
    else
      var s := Replay(codec, inputs[..|inputs| - 1]);
      match inputs[|inputs| - 1]
      case TookInvoke(req) => s.(reqId := req)
      case TookBatch(_, events) =>
        var r := Process(codec, s.reqId, s.table, events);
        Replayed(if r.runtimeDone then "" else s.reqId, r.table, s.out + r.bodies)
  }

  /** All events accepted so far, in acceptance order. */
  function AllEvents(inputs: seq<Input>): seq<Event> {
    if |inputs| == 0 then []
    else
      match inputs[|inputs| - 1]
      case TookBatch(_, events) => AllEvents(inputs[..|inputs| - 1]) + events
      case TookInvoke(_) => AllEvents(inputs[..|inputs| - 1])
  }

  /** The table is a fold over all accepted events, however they were batched and whatever invokes came between. */
  lemma {:induction false} ReplayTable(codec: Codec, inputs: seq<Input>)
    ensures Replay(codec, inputs).table == TableAfter(codec, map[], AllEvents(inputs))
  {
    if |inputs| > 0 {
      var front, last := inputs[..|inputs| - 1], inputs[|inputs| - 1];
      ReplayTable(codec, front);
      if last.TookBatch? {
        var s := Replay(codec, front);
        ProcessTable(codec, s.reqId, s.table, last.events);
        TableAfterConcat(codec, map[], AllEvents(front), last.events);
      }
    }
  }
}
