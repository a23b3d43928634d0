/** Telemetry events as the producer decodes them, and the records the processor makes of them. */
module Telemetry {
  import opened Framing

  datatype Option<+T> = None | Some(value: T)

  /** A decoded JSON value. */
  datatype Json =
    | Null
    | Bool(b: bool)
    | Number(n: real)
    | Text(s: string)
    | List(items: seq<Json>)
    | Object(fields: map<string, Json>)

  datatype EventKind = PlatformStart | PlatformRuntimeDone | PlatformReport | Function | Other(name: string)

  datatype Event = Event(time: string, kind: EventKind, record: Json)

  /** A log record: the fields that differ from record to record. */
  datatype LogDoc = LogDoc(kind: EventKind, requestId: string, step: string, time: string, status: string,
                           message: string)

  /** A metric record: the duration fields; None is a field left out. */
  datatype MetricDoc = MetricDoc(requestId: string, time: string, duration: Option<real>, billed: Option<real>,
                                 init: Option<real>, runtime: Option<real>, postRuntime: Option<real>)

  /** The library functions the processor calls. marshalMetric can fail: a metric may hold a float with no JSON form. */
  datatype Codec = Codec(marshalLog: LogDoc -> Bytes, marshalMetric: MetricDoc -> Option<Bytes>,
                         parseTime: string -> Option<int>, trim: string -> string)
  {
    ghost predicate Sound() {
      && (forall d: LogDoc :: Clean(marshalLog(d)))
      && (forall d: MetricDoc :: marshalMetric(d).Some? ==> Clean(marshalMetric(d).value))
    }
  }

  function Field(j: Json, name: string): Option<Json> {
    if j.Object? && name in j.fields then Some(j.fields[name]) else None
  }

  function TextField(j: Json, name: string): Option<string> {
    match Field(j, name)
    case Some(Text(s)) => Some(s)
    case _ => None
  }

  function NumberField(j: Json, name: string): Option<real> {
    match Field(j, name)
    case Some(Number(n)) => Some(n)
    case _ => None
  }

  /** The request an event names, None when its record is no object or has no such text. */
  function RequestId(e: Event): Option<string> {
    TextField(e.record, "requestId")
  }

  /** Whether a runtimeDone event ends the current request (handlePlatformEvent). */
  predicate EndsCurrent(e: Event, current: string) {
    current != "" && e.kind.PlatformRuntimeDone? && RequestId(e) == Some(current)
  }

  // The same in terms of the JSON itself.

  /** j is an object whose field `key` is the text v. */
  predicate HasText(j: Json, key: string, v: string) {
    j.Object? && key in j.fields && j.fields[key] == Text(v)
  }

  /** j is an object whose field `key` is a number. */
  predicate HasNumber(j: Json, key: string) {
    j.Object? && key in j.fields && j.fields[key].Number?
  }

  lemma FieldsMean(j: Json, key: string)
    ensures forall v :: TextField(j, key) == Some(v) <==> HasText(j, key, v)
    ensures NumberField(j, key) == if HasNumber(j, key) then Some(j.fields[key].n) else None
  {
  }

  /** e is a runtimeDone whose record names the non-empty request r. */
  predicate RuntimeDoneOf(e: Event, r: string) {
    r != "" && e.kind.PlatformRuntimeDone? && HasText(e.record, "requestId", r)
  }

  lemma EndsCurrentMeans(e: Event, current: string)
    ensures EndsCurrent(e, current) <==> RuntimeDoneOf(e, current)
  {
    FieldsMean(e.record, "requestId");
  }
}
