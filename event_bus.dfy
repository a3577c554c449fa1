/** Events and the in-process event bus (core/event_bus.py). */
module Events {
  import opened Basics

  /** The closed set of event kinds; their wire names are dotted strings. */
  datatype EventType = MetricAnomaly | ServiceDown | ApiLatencyHigh | DiskFull | CustomAlert

  function TypeName(t: EventType): string
  {
    match t
    case MetricAnomaly => "metric.anomaly"
    case ServiceDown => "service.down"
    case ApiLatencyHigh => "api.latency.high"
    case DiskFull => "disk.full"
    case CustomAlert => "custom.alert"
  }

  /** Validation of the `type` field: only the five literal names are accepted. */
  function ParseType(name: string): (r: Option<EventType>)
    ensures r.Some? ==> TypeName(r.value) == name
    ensures r.None? ==> forall t :: TypeName(t) != name
  {
    if name == "metric.anomaly" then Some(MetricAnomaly)
    else if name == "service.down" then Some(ServiceDown)
    else if name == "api.latency.high" then Some(ApiLatencyHigh)
    else if name == "disk.full" then Some(DiskFull)
    else if name == "custom.alert" then Some(CustomAlert)
    else None
  }

  /** Every kind's wire name is accepted and read back as that kind. */
  lemma ParseTypeName(t: EventType)
    ensures ParseType(TypeName(t)) == Some(t)
  {
  }

  /** A payload value. Python floats are not modelled; lists, dicts and None
      are kept only as their printed form. */
  datatype PayloadValue =
    | Num(n: int)
    | Text(s: string)
    | Flag(b: bool)
    | Structured(repr: string)

  type Payload = map<string, PayloadValue>

  /** Python's `payload.get(key, default)`. */
  function Get(p: Payload, key: string, default: PayloadValue): (v: PayloadValue)
    ensures key in p ==> v == p[key]
    ensures key !in p ==> v == default
  {
    if key in p then p[key] else default
  }

  /** Python's `str(v)`, which is what an f-string inserts. */
  function Str(v: PayloadValue): (r: string)
    ensures v.Num? ==> |r| > 0 && (r[0] == '-' <==> v.n < 0)
    ensures v.Num? && v.n >= 0 ==> (forall i :: 0 <= i < |r| ==> '0' <= r[i] <= '9') && DecimalValue(r) == v.n
    ensures v.Num? && v.n < 0 ==> (forall i :: 1 <= i < |r| ==> '0' <= r[i] <= '9') && DecimalValue(r[1..]) == -v.n
    ensures v.Num? && v.n >= 0 && |r| > 1 ==> r[0] != '0'
    ensures v.Num? && v.n < 0 ==> r[1] != '0'
    ensures v.Text? ==> r == v.s
    ensures v.Flag? ==> r == (if v.b then "True" else "False")
    ensures v.Structured? ==> r == v.repr
  {
    match v
    case Num(n) => IntToString(n)
    case Text(s) => s
    case Flag(b) => if b then "True" else "False"
    case Structured(repr) => repr
  }

  /** An immutable event; `ts` is the creation time as an opaque clock value. */
  datatype Event = Event(id: string, evtType: EventType, source: string, payload: Payload, ts: int)

  const DefaultSource := "simulator"

  /** Building an Event from its fields: the type name is validated, and an
      omitted source or payload takes its default. The id and the timestamp
      come from the clock and the random generator and are parameters here. */
  function MakeEvent(id: string, ts: int, typeName: string, source: Option<string>, payload: Option<Payload>)
    : (r: Option<Event>)
    ensures r.Some? <==> exists t :: TypeName(t) == typeName
    ensures r.Some? ==> TypeName(r.value.evtType) == typeName && r.value.id == id && r.value.ts == ts
    ensures r.Some? && source.None? ==> r.value.source == DefaultSource
    ensures r.Some? && source.Some? ==> r.value.source == source.value
    ensures r.Some? && payload.None? ==> r.value.payload == map[]
    ensures r.Some? && payload.Some? ==> r.value.payload == payload.value
  {
    match ParseType(typeName)
    case None => None
    case Some(t) =>
      assert TypeName(t) == typeName;
      Some(Event(id, t, if source.Some? then source.value else DefaultSource,
                 if payload.Some? then payload.value else map[], ts))
  }

  /** `payload.get("metric") == "cpu"` on a metric anomaly: the case that the
      analyzer, the fixer and the verifier all single out. */
  predicate IsCpuAnomaly(e: Event)
  {
    e.evtType == MetricAnomaly && "metric" in e.payload && e.payload["metric"] == Text("cpu")
  }

  /** An unbounded FIFO queue of events. `published` and `delivered` record,
      as ghost history, every event ever put and every event ever handed to
      the consumer. */
  class EventBus {
    var queue: seq<Event>
    ghost var published: seq<Event>
    ghost var delivered: seq<Event>

    /** First-in first-out: what has been delivered, followed by what is still
        queued, is exactly what was published, in order. */
    ghost predicate Valid()
      reads this
    {
      delivered + queue == published
    }

    constructor ()
      ensures Valid()
      ensures queue == [] && published == [] && delivered == []
    {
      queue, published, delivered := [], [], [];
    }

    /** Puts the event at the tail; the queue is unbounded, so this always succeeds. */
    method Publish(e: Event)
      requires Valid()
      modifies this
      ensures Valid()
      ensures queue == old(queue) + [e]
      ensures published == old(published) + [e] && delivered == old(delivered)
    {
      queue := queue + [e];
      published := published + [e];
    }

    /** One step of the consumer loop: hands out the head of the queue. On an
        empty queue the consumer would wait; here that is `None` with nothing changed. */
    method Consume() returns (r: Option<Event>)
      requires Valid()
      modifies this
      ensures Valid()
      ensures old(queue) == [] ==> r == None && queue == [] && delivered == old(delivered)
      ensures old(queue) != [] ==> r == Some(old(queue)[0]) && queue == old(queue)[1..]
                                   && delivered == old(delivered) + [old(queue)[0]]
      ensures published == old(published)
    {
      if queue == [] {
        r := None;
      } else {
        r := Some(queue[0]);
        delivered := delivered + [queue[0]];
        queue := queue[1..];
      }
    }
  }
}
