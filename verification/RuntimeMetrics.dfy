/** The in-process metrics: a bounded queue of raw events and the series they are
    aggregated into.  Names and labels are taken as normalised: an event carries its
    metric name and the key of its series. */
module MetricsAggregation {
  import opened Options
  import opened Sorting

  datatype Kind = Counter | Gauge | Histogram

  /** A JavaScript number: `NonFinite` is NaN or an infinity. */
  datatype Number = Finite(value: real) | NonFinite

  datatype Event = Event(kind: Kind, name: string, key: string, value: real, buckets: Option<seq<real>>)

  /** `bounds`, `counts`, `count` and `sum` belong to histograms. */
  datatype Series = Series(kind: Kind, name: string, value: real, bounds: seq<real>, counts: seq<nat>, count: nat, sum: real)

  datatype State = State(queue: seq<Event>, series: map<string, Series>, dropped: nat, stopped: bool)

  const EMPTY := State([], map[], 0, false)
  const DEPTH_NAME := "hyperspace_runtime_metrics_queue_depth"
  const DROPPED_NAME := "hyperspace_runtime_metrics_dropped_events_total"

  /** The default histogram bounds, and the keys of the two gauges the aggregator keeps
      about itself. */
  datatype Config = Config(capacity: nat, defaultBounds: seq<real>, depthKey: string, droppedKey: string)

  // ---- The specification ----

  function Bounds(c: Config, e: Event): seq<real> {
    Sorted(if e.buckets.Some? then e.buckets.value else c.defaultBounds)
  }

  /** One observation counted: counts beyond the bounds a series was created with are
      never shown and are not kept. */
  function Bump(counts: seq<nat>, bounds: seq<real>, value: real): (r: seq<nat>)
    ensures |r| == |counts|
  {
    seq(|counts|, i requires 0 <= i < |counts| => if i < |bounds| && value <= bounds[i] then counts[i] + 1 else counts[i])
  }

  function Zeros(n: nat): (r: seq<nat>)
    ensures |r| == n && forall i :: 0 <= i < n ==> r[i] == 0
  {
    seq(n, _ => 0)
  }

  function Apply(series: map<string, Series>, c: Config, e: Event): map<string, Series> {
    if e.kind.Histogram? then
      var bounds := Bounds(c, e);
      var was := if e.key in series then series[e.key] else Series(Histogram, e.name, 0.0, bounds, Zeros(|bounds|), 0, 0.0);
      series[e.key := was.(count := was.count + 1, sum := was.sum + e.value, counts := Bump(was.counts, bounds, e.value))]
    else
      var was := if e.key in series then series[e.key] else Series(e.kind, e.name, 0.0, [], [], 0, 0.0);
      series[e.key := was.(kind := e.kind, value := if e.kind.Counter? then was.value + e.value else e.value)]
  }

  function ApplyAll(series: map<string, Series>, c: Config, events: seq<Event>): map<string, Series>
    decreases |events|
  {
    if events == [] then series else ApplyAll(Apply(series, c, events[0]), c, events[1..])
  }

  function GaugeSeries(name: string, value: int): Series { Series(Gauge, name, value as real, [], [], 0, 0.0) }

  function Recorded(s: State, c: Config, e: Event, value: Number): State {
    if s.stopped || value.NonFinite? then s
    else if |s.queue| >= c.capacity then s.(dropped := s.dropped + 1)
    else s.(queue := s.queue + [e.(value := value.value)])
  }

  function Flushed(s: State, c: Config): State {
    s.(queue := [],
       series := ApplyAll(s.series, c, s.queue)[c.depthKey := GaugeSeries(DEPTH_NAME, 0)]
                                            [c.droppedKey := GaugeSeries(DROPPED_NAME, s.dropped)])
  }

  function WithoutGauges(series: map<string, Series>, name: string): map<string, Series> {
    map k | k in series && !(series[k].kind.Gauge? && series[k].name == name) :: series[k]
  }

  function GaugeReset(s: State, c: Config, name: string): State {
    var f := Flushed(s, c);
    f.(series := WithoutGauges(f.series, name))
  }

  class RuntimeMetrics {
    const config: Config
    var queue: seq<Event>
    var series: map<string, Series>
    var dropped: nat
    var stopped: bool

    function Contents(): State
      reads this
    {
      State(queue, series, dropped, stopped)
    }

    constructor (config: Config)
      ensures Contents() == EMPTY && this.config == config
    {
      this.config := config;
      queue, series, dropped, stopped := [], map[], 0, false;
    }

    method Record(e: Event, value: Number)
      modifies this
      ensures Contents() == Recorded(old(Contents()), config, e, value)
    {
      if stopped || value.NonFinite? {
        return;
      }
      if |queue| >= config.capacity {
        dropped := dropped + 1;
        return;
      }
      queue := queue + [e.(value := value.value)];
    }

    method Flush()
      modifies this
      ensures Contents() == Flushed(old(Contents()), config)
    {
      while |queue| > 0
        invariant ApplyAll(series, config, queue) == ApplyAll(old(series), config, old(queue))
        invariant dropped == old(dropped) && stopped == old(stopped)
        decreases |queue|
      {
        var event := queue[0];
        queue := queue[1..];
        ApplyMetricEvent(event);
      }
      series := series[config.depthKey := GaugeSeries(DEPTH_NAME, |queue|)];
      series := series[config.droppedKey := GaugeSeries(DROPPED_NAME, dropped)];
    }

    method ApplyMetricEvent(event: Event)
      modifies this`series
      ensures series == Apply(old(series), config, event)
    {
      if event.kind.Histogram? {
        ApplyHistogramEvent(event);
        return;
      }
      var metric := if event.key in series then series[event.key]
                    else Series(event.kind, event.name, 0.0, [], [], 0, 0.0);
      metric := metric.(kind := event.kind);
      metric := metric.(value := if event.kind.Counter? then metric.value + event.value else event.value);
      series := series[event.key := metric];
    }

    method ApplyHistogramEvent(event: Event)
      requires event.kind.Histogram?
      modifies this`series
      ensures series == Apply(old(series), config, event)
    {
      var bounds := Bounds(config, event);
      var metric := if event.key in series then series[event.key]
                    else Series(Histogram, event.name, 0.0, bounds, Zeros(|bounds|), 0, 0.0);
      var counts := Observe(metric.counts, bounds, event.value);
      series := series[event.key := metric.(count := metric.count + 1, sum := metric.sum + event.value, counts := counts)];
    }

    static method Observe(before: seq<nat>, bounds: seq<real>, value: real) returns (counts: seq<nat>)
      ensures counts == Bump(before, bounds, value)
    {
      counts := before;
      for index := 0 to |bounds|
        invariant |counts| == |before|
        invariant forall i :: 0 <= i < |counts| ==>
                    counts[i] == if i < index && value <= bounds[i] then before[i] + 1 else before[i]
      {
        if value <= bounds[index] && index < |counts| {
          counts := counts[index := counts[index] + 1];
        }
      }
    }

    method ResetGauge(name: string)
      modifies this
      ensures Contents() == GaugeReset(old(Contents()), config, name)
    {
      Flush();
      ghost var flushed := series;
      var keys := series.Keys;
      while keys != {}
        invariant keys <= series.Keys <= flushed.Keys
        invariant forall k :: k in series ==> series[k] == flushed[k]
        invariant forall k :: k in flushed.Keys - keys ==>
                    (k in series <==> !(flushed[k].kind.Gauge? && flushed[k].name == name))
        invariant queue == [] && dropped == old(dropped) && stopped == old(stopped)
        decreases keys
      {
        var key :| key in keys;
        if series[key].kind.Gauge? && series[key].name == name {
          series := series - {key};
        }
        keys := keys - {key};
      }
    }

    method Stop()
      modifies this
      ensures Contents() == Flushed(old(Contents()).(stopped := true), config)
    {
      stopped := true;
      Flush();
    }
  }

  // ---- Runs ----

  datatype Op = Record(event: Event, number: Number) | Flush | ResetGauge(name: string) | Stop

  function Step(s: State, c: Config, op: Op): State {
    match op
    case Record(event, number) => Recorded(s, c, event, number)
    case Flush => Flushed(s, c)
    case ResetGauge(name) => GaugeReset(s, c, name)
    case Stop => Flushed(s.(stopped := true), c)
  }

  function After(c: Config, ops: seq<Op>): State {
    if ops == [] then EMPTY else Step(After(c, ops[..|ops| - 1]), c, ops[|ops| - 1])
  }

  predicate HasStopped(ops: seq<Op>) { ops != [] && (ops[|ops| - 1].Stop? || HasStopped(ops[..|ops| - 1])) }

  /** The finite events recorded before the stop. */
  function Offered(c: Config, ops: seq<Op>): seq<Event> {
    if ops == [] then []
    else
      var init, last := ops[..|ops| - 1], ops[|ops| - 1];
      if last.Record? && last.number.Finite? && !HasStopped(init)
      then Offered(c, init) + [last.event.(value := last.number.value)] else Offered(c, init)
  }

  /** Those of them that found room in the queue. */
  function Accepted(c: Config, ops: seq<Op>): seq<Event> {
    if ops == [] then []
    else
      var init, last := ops[..|ops| - 1], ops[|ops| - 1];
      if last.Record? && last.number.Finite? && !HasStopped(init) && |After(c, init).queue| < c.capacity
      then Accepted(c, init) + [last.event.(value := last.number.value)] else Accepted(c, init)
  }

  /** The events aggregated so far: each flush takes the whole queue. */
  function Applied(c: Config, ops: seq<Op>): seq<Event> {
    if ops == [] then []
    else
      var init, last := ops[..|ops| - 1], ops[|ops| - 1];
      if last.Record? then Applied(c, init) else Applied(c, init) + After(c, init).queue
  }

  /** Bounded memory and no loss without trace: the queue respects its capacity, every
      finite event before the stop is applied, queued or counted as dropped, and those
      not dropped are applied in the order they came. */
  lemma {:induction false} EveryEventAccounted(c: Config, ops: seq<Op>)
    ensures var s := After(c, ops);
            && |s.queue| <= c.capacity && s.stopped == HasStopped(ops)
            && Accepted(c, ops) == Applied(c, ops) + s.queue
            && |Offered(c, ops)| == |Applied(c, ops)| + |s.queue| + s.dropped
  {
    if ops != [] {
      EveryEventAccounted(c, ops[..|ops| - 1]);
    }
  }

  // ---- What a series holds ----

  /** Each series has one kind and one bucket list, and leaves the two own gauges alone. */
  ghost predicate OneKindPerSeries(c: Config, events: seq<Event>) {
    && (forall i, j :: 0 <= i < |events| && 0 <= j < |events| && events[i].key == events[j].key ==>
          events[i].kind == events[j].kind && events[i].buckets == events[j].buckets)
    && (forall i :: 0 <= i < |events| ==> events[i].key != c.depthKey && events[i].key != c.droppedKey)
  }

  function ValuesOf(events: seq<Event>, key: string): seq<real> {
    if events == [] then []
    else
      var n := |events| - 1;
      if events[n].key == key then ValuesOf(events[..n], key) + [events[n].value] else ValuesOf(events[..n], key)
  }

  function Sum(values: seq<real>): real {
    if values == [] then 0.0 else Sum(values[..|values| - 1]) + values[|values| - 1]
  }

  function CountAtMost(values: seq<real>, bound: real): (n: nat)
    ensures n <= |values|
  {
    if values == [] then 0
    else CountAtMost(values[..|values| - 1], bound) + if values[|values| - 1] <= bound then 1 else 0
  }

  /** The series is what the values `values` of its events make of it. */
  ghost predicate Holds(series: Series, kind: Kind, bounds: seq<real>, values: seq<real>) {
    && series.kind == kind
    && (kind.Counter? ==> series.value == Sum(values))
    && (kind.Histogram? ==>
          && series.bounds == bounds && |series.counts| == |bounds|
          && series.count == |values| && series.sum == Sum(values)
          && forall i :: 0 <= i < |bounds| ==> series.counts[i] == CountAtMost(values, bounds[i]))
  }

  /** Counters and histograms after the events `done`, for one key. */
  ghost predicate Correct(series: map<string, Series>, key: string, kind: Kind, bounds: seq<real>, done: seq<Event>) {
    var values := ValuesOf(done, key);
    if values == [] then key !in series else key in series && Holds(series[key], kind, bounds, values)
  }

  /** An event of the series `key` has its kind and bounds. */
  predicate Conforms(c: Config, e: Event, key: string, kind: Kind, bounds: seq<real>) {
    e.key == key ==> e.kind == kind && (kind.Histogram? ==> Bounds(c, e) == bounds)
  }

  ghost predicate AllConform(c: Config, events: seq<Event>, key: string, kind: Kind, bounds: seq<real>) {
    forall i :: 0 <= i < |events| ==> Conforms(c, events[i], key, kind, bounds)
  }

  lemma ConformTail(c: Config, events: seq<Event>, key: string, kind: Kind, bounds: seq<real>)
    requires AllConform(c, events, key, kind, bounds) && events != []
    ensures Conforms(c, events[0], key, kind, bounds) && AllConform(c, events[1..], key, kind, bounds)
  {
  }

  lemma ApplyCorrect(series: map<string, Series>, c: Config, key: string, kind: Kind, bounds: seq<real>, done: seq<Event>, e: Event)
    requires Correct(series, key, kind, bounds, done)
    requires !kind.Gauge? && Conforms(c, e, key, kind, bounds)
    ensures Correct(Apply(series, c, e), key, kind, bounds, done + [e])
  {
    assert (done + [e])[..|done|] == done;
    if e.key == key {
      ApplyOwn(series, c, key, kind, bounds, ValuesOf(done, key), e);
      assert ValuesOf(done + [e], key) == ValuesOf(done, key) + [e.value];
    }
  }

  lemma ApplyOwn(series: map<string, Series>, c: Config, key: string, kind: Kind, bounds: seq<real>, values: seq<real>, e: Event)
    requires !kind.Gauge? && e.key == key && Conforms(c, e, key, kind, bounds)
    requires if values == [] then key !in series else key in series && Holds(series[key], kind, bounds, values)
    ensures var after := Apply(series, c, e); key in after && Holds(after[key], kind, bounds, values + [e.value])
  {
    ValuesGrow(values, e.value);
    if values == [] {
      EmptyHolds(kind, e.name, bounds);
    }
  }

  lemma ValuesGrow(values: seq<real>, value: real)
    ensures Sum(values + [value]) == Sum(values) + value
    ensures forall b: real :: CountAtMost(values + [value], b) == CountAtMost(values, b) + if value <= b then 1 else 0
  {
    assert (values + [value])[..|values|] == values;
  }

  lemma EmptyHolds(kind: Kind, name: string, bounds: seq<real>)
    ensures kind.Histogram? ==> Holds(Series(kind, name, 0.0, bounds, Zeros(|bounds|), 0, 0.0), kind, bounds, [])
    ensures kind.Counter? ==> Holds(Series(kind, name, 0.0, [], [], 0, 0.0), kind, bounds, [])
  {
  }

  lemma {:induction false} ApplyAllCorrect(series: map<string, Series>, c: Config, key: string, kind: Kind, bounds: seq<real>, done: seq<Event>, events: seq<Event>)
    requires Correct(series, key, kind, bounds, done)
    requires !kind.Gauge? && AllConform(c, events, key, kind, bounds)
    ensures Correct(ApplyAll(series, c, events), key, kind, bounds, done + events)
    decreases |events|
  {
    if events == [] {
      assert done + events == done;
    } else {
      var next := Apply(series, c, events[0]);
      ConformTail(c, events, key, kind, bounds);
      ApplyCorrect(series, c, key, kind, bounds, done, events[0]);
      ApplyAllCorrect(next, c, key, kind, bounds, done + [events[0]], events[1..]);
      MoveOne(done, events);
    }
  }

  lemma MoveOne(done: seq<Event>, events: seq<Event>)
    requires events != []
    ensures done + [events[0]] + events[1..] == done + events
  {
  }

  lemma FlushCorrect(s: State, c: Config, key: string, kind: Kind, bounds: seq<real>, done: seq<Event>)
    requires Correct(s.series, key, kind, bounds, done) && !kind.Gauge?
    requires key != c.depthKey && key != c.droppedKey
    requires AllConform(c, s.queue, key, kind, bounds)
    ensures Correct(Flushed(s, c).series, key, kind, bounds, done + s.queue)
    ensures forall name :: Correct(GaugeReset(s, c, name).series, key, kind, bounds, done + s.queue)
  {
    ApplyAllCorrect(s.series, c, key, kind, bounds, done, s.queue);
  }

  lemma {:induction false} RunCorrect(c: Config, ops: seq<Op>, key: string, kind: Kind, bounds: seq<real>)
    requires !kind.Gauge? && key != c.depthKey && key != c.droppedKey
    requires AllConform(c, Accepted(c, ops), key, kind, bounds)
    ensures Correct(After(c, ops).series, key, kind, bounds, Applied(c, ops))
  {
    if ops != [] {
      var init, last := ops[..|ops| - 1], ops[|ops| - 1];
      forall i | 0 <= i < |Accepted(c, init)| ensures Conforms(c, Accepted(c, init)[i], key, kind, bounds) {
        assert Accepted(c, ops)[i] == Accepted(c, init)[i];
      }
      RunCorrect(c, init, key, kind, bounds);
      if !last.Record? {
        EveryEventAccounted(c, init);
        var s := After(c, init);
        assert Accepted(c, ops) == Accepted(c, init);
        var n := |Applied(c, init)|;
        forall i | 0 <= i < |s.queue| ensures Conforms(c, s.queue[i], key, kind, bounds) {
          assert Accepted(c, init)[n + i] == s.queue[i];
        }
        FlushCorrect(s, c, key, kind, bounds, Applied(c, init));
        FlushCorrect(s.(stopped := true), c, key, kind, bounds, Applied(c, init));
      }
    }
  }

  /** Over any run with one kind per series: a counter is the sum of its applied events,
      and a histogram counts, for each bound, the applied observations at most that
      bound.  Resets of gauges and the stop change neither. */
  lemma SeriesMeanTheirEvents(c: Config, ops: seq<Op>, e: Event)
    requires OneKindPerSeries(c, Accepted(c, ops))
    requires e in Applied(c, ops) && !e.kind.Gauge?
    ensures var series := After(c, ops).series;
            e.key in series && Holds(series[e.key], e.kind, Bounds(c, e), ValuesOf(Applied(c, ops), e.key))
  {
    EveryEventAccounted(c, ops);
    assert e in Accepted(c, ops);
    RunCorrect(c, ops, e.key, e.kind, Bounds(c, e));
    HasValue(Applied(c, ops), e);
  }

  lemma {:induction false} HasValue(events: seq<Event>, e: Event)
    requires e in events
    ensures ValuesOf(events, e.key) != []
  {
    var n := |events| - 1;
    if events[n] != e {
      assert e in events[..n];
      HasValue(events[..n], e);
    }
  }

  /** The exposition's buckets never decrease and never exceed the total count. */
  lemma BucketsCumulative(c: Config, ops: seq<Op>, e: Event, i: nat, j: nat)
    requires OneKindPerSeries(c, Accepted(c, ops))
    requires e in Applied(c, ops) && e.kind.Histogram? && i <= j < |Bounds(c, e)|
    ensures e.key in After(c, ops).series
    ensures var h := After(c, ops).series[e.key];
            |h.counts| == |h.bounds| == |Bounds(c, e)| && h.counts[i] <= h.counts[j] <= h.count && h.bounds[i] <= h.bounds[j]
  {
    SeriesMeanTheirEvents(c, ops, e);
    HoldsCumulative(After(c, ops).series[e.key], Bounds(c, e), ValuesOf(Applied(c, ops), e.key), i, j);
  }

  lemma HoldsCumulative(h: Series, bounds: seq<real>, values: seq<real>, i: nat, j: nat)
    requires Holds(h, Histogram, bounds, values) && Ascending(bounds) && i <= j < |bounds|
    ensures h.counts[i] <= h.counts[j] <= h.count && h.bounds[i] <= h.bounds[j]
  {
    CountMonotone(values, bounds[i], bounds[j]);
  }

  lemma {:induction false} CountMonotone(values: seq<real>, a: real, b: real)
    requires a <= b
    ensures CountAtMost(values, a) <= CountAtMost(values, b)
  {
    if values != [] {
      CountMonotone(values[..|values| - 1], a, b);
    }
  }
}
