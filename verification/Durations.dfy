/** The table of open requests and the duration metrics computed from it. */
module Durations {
  import opened Telemetry

  /** Times are nanoseconds since the Unix epoch; End starts as the zero time, January 1 of year 1. */
  const ZERO_TIME: int := -62135596800 * 1_000_000_000
  const MAX_DURATION: int := 0x7FFF_FFFF_FFFF_FFFF
  const MIN_DURATION: int := -MAX_DURATION - 1

  datatype Duration = Duration(start: int, end: int)

  type Table = map<string, Duration>

  /** Subtraction of times saturates at the range of a 64-bit duration. */
  function Elapsed(d: Duration): int {
    var x := d.end - d.start;
    if x > MAX_DURATION then MAX_DURATION else if x < MIN_DURATION then MIN_DURATION else x
  }

  /** Whole milliseconds, truncated toward zero. */
  function Millis(ns: int): int {
    if ns >= 0 then ns / 1_000_000 else -((-ns) / 1_000_000)
  }

  /** The request and start time of a start event the processor accepts. */
  function StartOf(codec: Codec, e: Event): Option<(string, int)> {
    match (e.kind, RequestId(e), codec.parseTime(e.time))
    case (PlatformStart, Some(r), Some(t)) => Some((r, t))
    case _ => None
  }

  datatype Report = Report(id: string, duration: Option<real>, billed: Option<real>, init: Option<real>)

  /** The parts of a report event the processor accepts. */
  function ReportOf(e: Event): Option<Report> {
    match (e.kind, Field(e.record, "metrics"), RequestId(e))
    case (PlatformReport, Some(Object(fields)), Some(r)) =>
      var m := Object(fields);
      Some(Report(r, NumberField(m, "durationMs"), NumberField(m, "billedDurationMs"),
                  NumberField(m, "initDurationMs")))
    case _ => None
  }

  /** What processing one event does to the table. */
  function Update(codec: Codec, t: Table, e: Event): Table {
    match e.kind
    case PlatformStart =>
      (match StartOf(codec, e)
       case Some((r, at)) => t[r := Duration(at, ZERO_TIME)]
       case None => t)
    case PlatformReport =>
      (match ReportOf(e)
       case Some(rep) => if rep.id in t && rep.duration.Some? then t - {rep.id} else t
       case None => t)
    case PlatformRuntimeDone =>
      (match (RequestId(e), codec.parseTime(e.time))
       case (Some(r), Some(at)) => if r in t then t[r := t[r].(end := at)] else t
       case _ => t)
    case _ => t
  }

  /** A zero is left out of the record, whether read or missing. */
  function NonZero(x: Option<real>): Option<real> {
    if x == Some(0.0) then None else x
  }

  function OrZero(x: Option<real>): real {
    if x.Some? then x.value else 0.0
  }

  /** The duration metrics of a report against the table at that point. */
  function Metric(t: Table, rep: Report, time: string): MetricDoc {
    var post :=
      if rep.id in t && rep.duration.Some?
      then Some(rep.duration.value - Millis(Elapsed(t[rep.id])) as real)
      else None;
    var runtime := if post.Some? then Some(OrZero(rep.billed) - post.value) else None;
    MetricDoc(rep.id, time, NonZero(rep.duration), NonZero(rep.billed), NonZero(rep.init), runtime, post)
  }

  function TableAfter(codec: Codec, t: Table, events: seq<Event>): Table {
    if |events| == 0 then t
    else Update(codec, TableAfter(codec, t, events[..|events| - 1]), events[|events| - 1])
  }

  function Lookup(t: Table, r: string): Option<Duration> {
    if r in t then Some(t[r]) else None
  }

  /** Only the events that name request r. */
  function Only(events: seq<Event>, r: string): seq<Event> {
    if |events| == 0 then []
    else
      var rest, e := Only(events[..|events| - 1], r), events[|events| - 1];
      if RequestId(e) == Some(r) then rest + [e] else rest
  }

  lemma {:induction false} TableAfterConcat(codec: Codec, t: Table, a: seq<Event>, b: seq<Event>)
    ensures TableAfter(codec, t, a + b) == TableAfter(codec, TableAfter(codec, t, a), b)
  {
    if |b| == 0 {
      assert a + b == a;
    } else {
      assert (a + b)[..|a + b| - 1] == a + b[..|b| - 1];
      TableAfterConcat(codec, t, a, b[..|b| - 1]);
    }
  }

  lemma UpdateIsLocal(codec: Codec, t: Table, u: Table, e: Event, r: string)
    requires Lookup(t, r) == Lookup(u, r)
    ensures Lookup(Update(codec, t, e), r) == Lookup(Update(codec, u, e), r)
    ensures RequestId(e) != Some(r) ==> Lookup(Update(codec, t, e), r) == Lookup(t, r)
  {
  }

  /** Other requests' events never touch the entry of r. */
  lemma {:induction false} LookupProjects(codec: Codec, t: Table, events: seq<Event>, r: string)
    ensures Lookup(TableAfter(codec, t, events), r) == Lookup(TableAfter(codec, t, Only(events, r)), r)
  {
    if |events| > 0 {
      var n := |events| - 1;
      LookupProjects(codec, t, events[..n], r);
      var before, only := TableAfter(codec, t, events[..n]), TableAfter(codec, t, Only(events[..n], r));
      UpdateIsLocal(codec, before, only, events[n], r);
      if RequestId(events[n]) == Some(r) {
        assert Only(events, r)[..|Only(events, r)| - 1] == Only(events[..n], r);
      }
    }
  }

  /** The metrics of a report for r are those of a processor that saw only r's events. */
  lemma MetricProjects(codec: Codec, t: Table, events: seq<Event>, rep: Report, time: string)
    ensures Metric(TableAfter(codec, t, events), rep, time) ==
            Metric(TableAfter(codec, t, Only(events, rep.id)), rep, time)
  {
    LookupProjects(codec, t, events, rep.id);
    var a, b := TableAfter(codec, t, events), TableAfter(codec, t, Only(events, rep.id));
    assert Lookup(a, rep.id) == Lookup(b, rep.id);
  }

  // The open-request index, defined from the event sequence alone.

  /** A platform.start of r with a time that parses. */
  predicate Opens(codec: Codec, e: Event, r: string) {
    e.kind.PlatformStart? && HasText(e.record, "requestId", r) && codec.parseTime(e.time).Some?
  }

  /** A platform.report of r with metrics m. */
  predicate Reports(e: Event, r: string, m: Json) {
    && e.kind.PlatformReport? && HasText(e.record, "requestId", r)
    && "metrics" in e.record.fields && e.record.fields["metrics"] == m && m.Object?
  }

  /** A platform.report of r with a numeric duration. */
  predicate Closes(e: Event, r: string) {
    && e.kind.PlatformReport? && HasText(e.record, "requestId", r)
    && "metrics" in e.record.fields && HasNumber(e.record.fields["metrics"], "durationMs")
  }

  /** A platform.runtimeDone of r with a time that parses. */
  predicate Ends(codec: Codec, e: Event, r: string) {
    e.kind.PlatformRuntimeDone? && HasText(e.record, "requestId", r) && codec.parseTime(e.time).Some?
  }

  /** What the accepted parts of an event are, in terms of its record. */
  lemma PartsMean(codec: Codec, e: Event, r: string)
    ensures Opens(codec, e, r) <==> StartOf(codec, e).Some? && StartOf(codec, e).value.0 == r
    ensures Opens(codec, e, r) ==> StartOf(codec, e).value.1 == codec.parseTime(e.time).value
    ensures Closes(e, r) <==> ReportOf(e).Some? && ReportOf(e).value.id == r && ReportOf(e).value.duration.Some?
    ensures Ends(codec, e, r) <==>
            e.kind.PlatformRuntimeDone? && RequestId(e) == Some(r) && codec.parseTime(e.time).Some?
  {
    FieldsMean(e.record, "requestId");
    if Field(e.record, "metrics").Some? {
      FieldsMean(Field(e.record, "metrics").value, "durationMs");
    }
  }

  /** i is the latest accepted start of r, and nothing closed r since. */
  predicate OpenSince(codec: Codec, events: seq<Event>, r: string, i: nat) {
    && i < |events|
    && Opens(codec, events[i], r)
    && forall j :: i < j < |events| ==> !Opens(codec, events[j], r) && !Closes(events[j], r)
  }

  /** k is the latest parsed runtime-done of r after i. */
  predicate EndedAt(codec: Codec, events: seq<Event>, r: string, i: nat, k: nat) {
    && i < k < |events|
    && Ends(codec, events[k], r)
    && forall j :: k < j < |events| ==> !Ends(codec, events[j], r)
  }

  lemma UpdateEffect(codec: Codec, t: Table, e: Event, r: string)
    ensures Opens(codec, e, r) ==>
              Lookup(Update(codec, t, e), r) == Some(Duration(codec.parseTime(e.time).value, ZERO_TIME))
    ensures Closes(e, r) ==> Lookup(Update(codec, t, e), r) == None
    ensures Ends(codec, e, r) && r in t ==>
              Lookup(Update(codec, t, e), r) == Some(t[r].(end := codec.parseTime(e.time).value))
    ensures Ends(codec, e, r) && r !in t ==> Lookup(Update(codec, t, e), r) == None
    ensures !Opens(codec, e, r) && !Closes(e, r) && !Ends(codec, e, r) ==>
              Lookup(Update(codec, t, e), r) == Lookup(t, r)
  {
    PartsMean(codec, e, r);
  }

  lemma OpenSinceShorter(codec: Codec, events: seq<Event>, r: string, i: nat)
    requires i < |events| - 1
    ensures var n := |events| - 1;
            OpenSince(codec, events, r, i) <==>
            OpenSince(codec, events[..n], r, i) && !Opens(codec, events[n], r) && !Closes(events[n], r)
  {
    var n := |events| - 1;
    assert forall j :: 0 <= j < n ==> events[..n][j] == events[j];
    if OpenSince(codec, events[..n], r, i) && !Opens(codec, events[n], r) && !Closes(events[n], r) {
      forall j | i < j < |events|
        ensures !Opens(codec, events[j], r) && !Closes(events[j], r)
      {
        if j < n { assert events[..n][j] == events[j]; }
      }
    }
  }

  /** The entry of an open request. */
  lemma {:induction false} OpenEntry(codec: Codec, events: seq<Event>, r: string, i: nat)
    requires OpenSince(codec, events, r, i)
    ensures var t := TableAfter(codec, map[], events);
            r in t && t[r].start == codec.parseTime(events[i].time).value
    ensures (forall k :: i < k < |events| ==> !Ends(codec, events[k], r)) ==>
              TableAfter(codec, map[], events)[r].end == ZERO_TIME
  {
    var n := |events| - 1;
    UpdateEffect(codec, TableAfter(codec, map[], events[..n]), events[n], r);
    if i < n {
      OpenSinceShorter(codec, events, r, i);
      OpenEntry(codec, events[..n], r, i);
      assert forall j :: 0 <= j < n ==> events[..n][j] == events[j];
    }
  }

  lemma {:induction false} EndOfEntry(codec: Codec, events: seq<Event>, r: string, i: nat, k: nat)
    requires OpenSince(codec, events, r, i) && EndedAt(codec, events, r, i, k)
    ensures var t := TableAfter(codec, map[], events);
            r in t && t[r].end == codec.parseTime(events[k].time).value
  {
    var n := |events| - 1;
    UpdateEffect(codec, TableAfter(codec, map[], events[..n]), events[n], r);
    OpenSinceShorter(codec, events, r, i);
    OpenEntry(codec, events[..n], r, i);
    if k < n {
      assert forall j :: 0 <= j < n ==> events[..n][j] == events[j];
      EndOfEntry(codec, events[..n], r, i, k);
    }
  }

  lemma {:induction false} KeyIsOpen(codec: Codec, events: seq<Event>, r: string)
    requires r in TableAfter(codec, map[], events)
    ensures exists i: nat :: OpenSince(codec, events, r, i)
  {
    var n := |events| - 1;
    UpdateEffect(codec, TableAfter(codec, map[], events[..n]), events[n], r);
    if Opens(codec, events[n], r) {
      assert OpenSince(codec, events, r, n);
    } else {
      KeyIsOpen(codec, events[..n], r);
      var i: nat :| OpenSince(codec, events[..n], r, i);
      OpenSinceShorter(codec, events, r, i);
      assert OpenSince(codec, events, r, i);
    }
  }

  /** r has an entry exactly when some accepted start of it is not followed by a closing report; the entry's
      start is the latest start's, its end the latest parsed runtime-done's since then, or zero if none came. */
  lemma OpenRequestIndex(codec: Codec, events: seq<Event>, r: string)
    ensures r in TableAfter(codec, map[], events) <==> exists i: nat :: OpenSince(codec, events, r, i)
    ensures forall i: nat :: OpenSince(codec, events, r, i) ==>
              TableAfter(codec, map[], events)[r].start == codec.parseTime(events[i].time).value
    ensures forall i: nat, k: nat :: OpenSince(codec, events, r, i) && EndedAt(codec, events, r, i, k) ==>
              TableAfter(codec, map[], events)[r].end == codec.parseTime(events[k].time).value
    ensures forall i: nat ::
              OpenSince(codec, events, r, i) && (forall k :: i < k < |events| ==> !Ends(codec, events[k], r)) ==>
                TableAfter(codec, map[], events)[r].end == ZERO_TIME
  {
    if r in TableAfter(codec, map[], events) {
      KeyIsOpen(codec, events, r);
    }
    forall i: nat | OpenSince(codec, events, r, i)
      ensures r in TableAfter(codec, map[], events)
      ensures TableAfter(codec, map[], events)[r].start == codec.parseTime(events[i].time).value
      ensures (forall k :: i < k < |events| ==> !Ends(codec, events[k], r)) ==>
                TableAfter(codec, map[], events)[r].end == ZERO_TIME
    {
      OpenEntry(codec, events, r, i);
    }
    forall i: nat, k: nat | OpenSince(codec, events, r, i) && EndedAt(codec, events, r, i, k)
      ensures TableAfter(codec, map[], events)[r].end == codec.parseTime(events[k].time).value
    {
      EndOfEntry(codec, events, r, i, k);
    }
  }

  /** ms is the duration of ns nanoseconds in whole milliseconds, truncated toward zero. */
  predicate Truncated(ns: int, ms: int) {
    if ns >= 0 then 0 <= ns - 1_000_000 * ms < 1_000_000 else -1_000_000 < ns - 1_000_000 * ms <= 0
  }

  lemma MillisTruncates(ns: int)
    ensures Truncated(ns, Millis(ns))
    ensures Millis(-ns) == -Millis(ns)
  {
  }

  /** x is the value nearest to d in the range of a 64-bit duration. */
  predicate Saturated(d: int, x: int) {
    && -0x8000_0000_0000_0000 <= x <= 0x7FFF_FFFF_FFFF_FFFF
    && (d != x ==> if d > x then x == 0x7FFF_FFFF_FFFF_FFFF else x == -0x8000_0000_0000_0000)
  }

  lemma ElapsedSaturates(d: Duration)
    ensures Saturated(d.end - d.start, Elapsed(d))
  {
  }

  /** The zero time is the first instant of year 1: 1969 years of the Gregorian calendar before the epoch. */
  lemma ZeroTimeIsYearOne()
    ensures ZERO_TIME == -(1969 * 365 + 1969 / 4 - 1969 / 100 + 1969 / 400) * 86_400 * 1_000_000_000
  {
  }

  /** The metrics split the time of a request that ran for ns nanoseconds, in the whole milliseconds of that: what came
      after it is the duration less those, runtime what was billed less what came after. */
  ghost predicate SplitsAt(m: MetricDoc, duration: real, billed: real, ns: int) {
    exists ms: int ::
      && Truncated(ns, ms)
      && m.postRuntime == Some(duration - ms as real)
      && m.runtime == Some(billed - (duration - ms as real))
  }

  lemma MetricOfEntry(t: Table, rep: Report, time: string, ns: int)
    requires rep.id in t && rep.duration.Some? && Saturated(t[rep.id].end - t[rep.id].start, ns)
    ensures SplitsAt(Metric(t, rep, time), rep.duration.value, if rep.billed.Some? then rep.billed.value else 0.0, ns)
  {
    ElapsedSaturates(t[rep.id]);
    MillisTruncates(ns);
    assert Elapsed(t[rep.id]) == ns;
    assert Truncated(ns, Millis(ns));
  }

  /** A request that was opened at i and has ended at j: whatever lies in between, other requests' events and rejected
      events of its own included, the report splits the billed time at the runtime-done. */
  lemma WellFormedRequest(codec: Codec, events: seq<Event>, i: nat, j: nat, rep: Report, time: string, t0: int, t1: int)
    requires OpenSince(codec, events, rep.id, i) && EndedAt(codec, events, rep.id, i, j) && rep.duration.Some?
    requires codec.parseTime(events[i].time) == Some(t0) && codec.parseTime(events[j].time) == Some(t1)
    requires MIN_DURATION <= t1 - t0 <= MAX_DURATION
    ensures SplitsAt(Metric(TableAfter(codec, map[], events), rep, time), rep.duration.value,
                     if rep.billed.Some? then rep.billed.value else 0.0, t1 - t0)
  {
    OpenEntry(codec, events, rep.id, i);
    EndOfEntry(codec, events, rep.id, i, j);
    MetricOfEntry(TableAfter(codec, map[], events), rep, time, t1 - t0);
  }

  /** A finding: when the report comes without a runtime-done, the zero end time saturates the subtraction (for any
      start later than the year 293) and the post-runtime metric is off by some 292 years. */
  lemma MissingRuntimeDone(codec: Codec, events: seq<Event>, i: nat, rep: Report, time: string, t0: int)
    requires OpenSince(codec, events, rep.id, i) && codec.parseTime(events[i].time) == Some(t0)
    requires forall k :: i < k < |events| ==> !Ends(codec, events[k], rep.id)
    requires rep.duration.Some? && t0 - ZERO_TIME > MAX_DURATION
    ensures Metric(TableAfter(codec, map[], events), rep, time).postRuntime ==
            Some(rep.duration.value + 9223372036854.0)
  {
    OpenEntry(codec, events, rep.id, i);
    assert Elapsed(TableAfter(codec, map[], events)[rep.id]) == MIN_DURATION;
    assert Millis(MIN_DURATION) == -9223372036854;
  }
}
