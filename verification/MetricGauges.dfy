/** What gauges show: the last value recorded, until a reset removes them. */
module MetricGauges {
  import opened Options
  import opened MetricsAggregation

  /** In a batch the last event of a gauge decides its value. */
  lemma {:induction false} GaugeIsLast(series: map<string, Series>, c: Config, events: seq<Event>, key: string)
    requires forall i :: 0 <= i < |events| && events[i].key == key ==> events[i].kind.Gauge?
    ensures var values, after := ValuesOf(events, key), ApplyAll(series, c, events);
            if values == [] then (key in after <==> key in series) && (key in series ==> after[key] == series[key])
            else key in after && after[key].kind.Gauge? && after[key].value == values[|values| - 1]
  {
    if events != [] {
      var n := |events| - 1;
      GaugeIsLast(series, c, events[..n], key);
      ApplyLast(series, c, events);
      ApplyShows(ApplyAll(series, c, events[..n]), c, events[n], key);
    }
  }

  lemma ApplyShows(series: map<string, Series>, c: Config, e: Event, key: string)
    requires e.key == key ==> e.kind.Gauge?
    ensures var after := Apply(series, c, e);
            if e.key == key then key in after && after[key].kind.Gauge? && after[key].value == e.value
            else (key in after <==> key in series) && (key in series ==> after[key] == series[key])
  {
  }

  lemma {:induction false} ApplyLast(series: map<string, Series>, c: Config, events: seq<Event>)
    requires events != []
    ensures ApplyAll(series, c, events) == Apply(ApplyAll(series, c, events[..|events| - 1]), c, events[|events| - 1])
    decreases |events|
  {
    var n := |events| - 1;
    if n == 0 {
      assert events[1..] == [];
    } else {
      ApplyLast(Apply(series, c, events[0]), c, events[1..]);
      assert events[1..][..n - 1] == events[..n][1..] && events[1..][n - 1] == events[n];
    }
  }

  /** A flush shows the last value recorded of each gauge, and of the two gauges the
      aggregator keeps the queue that is left and the events dropped. */
  lemma FlushShowsGauges(c: Config, ops: seq<Op>, key: string)
    requires c.depthKey != c.droppedKey && key != c.depthKey && key != c.droppedKey
    requires var queue := After(c, ops).queue;
             ValuesOf(queue, key) != [] && forall i :: 0 <= i < |queue| && queue[i].key == key ==> queue[i].kind.Gauge?
    ensures var s, s' := After(c, ops), After(c, ops + [Flush]);
            && ShowsLast(s'.series, key, ValuesOf(s.queue, key))
            && ShowsLast(s'.series, c.depthKey, [0.0]) && ShowsLast(s'.series, c.droppedKey, [s.dropped as real])
            && s'.queue == []
  {
    assert (ops + [Flush])[..|ops|] == ops;
    GaugeIsLast(After(c, ops).series, c, After(c, ops).queue, key);
  }

  predicate ShowsLast(series: map<string, Series>, key: string, values: seq<real>)
    requires values != []
  {
    key in series && series[key].kind.Gauge? && series[key].value == values[|values| - 1]
  }

  /** A reset removes exactly the gauges of the name, whatever was queued of them, and
      leaves everything else as a flush would. */
  lemma ResetRemovesGauges(c: Config, ops: seq<Op>, name: string, key: string)
    ensures var flushed, reset := After(c, ops + [Flush]), After(c, ops + [ResetGauge(name)]);
            && (key in reset.series <==> key in flushed.series && (flushed.series[key].kind.Gauge? ==> flushed.series[key].name != name))
            && (key in reset.series ==> reset.series[key] == flushed.series[key])
            && reset.queue == [] && reset.dropped == flushed.dropped && reset.stopped == flushed.stopped
  {
    assert (ops + [Flush])[..|ops|] == ops && (ops + [ResetGauge(name)])[..|ops|] == ops;
  }
}
