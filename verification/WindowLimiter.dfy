/** The bounded fixed-window limiter.  `WindowLimiter` is the class of the program;
    `Step` is the specification of its one operation, and the run lemmas below say
    what a caller may rely on over any sequence of calls. */
module WindowLimiting {
  import opened Options

  datatype Bucket = Bucket(count: int, resetAt: int)

  datatype Answer = Answer(allowed: bool, remaining: int, resetAt: int)

  /** `full` records that the call was refused for lack of a free bucket. */
  datatype Outcome = Outcome(answer: Answer, full: bool)

  datatype Call = Call(key: string, max: int, window: int, now: int)

  datatype Table = Table(buckets: map<string, Bucket>, lastSweep: int)

  const EMPTY := Table(map[], 0)

  function Min(a: int, b: int): int { if a < b then a else b }

  function Max(a: int, b: int): int { if a < b then b else a }

  // ---- The specification of one call ----

  function Unexpired(buckets: map<string, Bucket>, now: int): map<string, Bucket> {
    map k | k in buckets && buckets[k].resetAt > now :: buckets[k]
  }

  /** One more use of a bucket; the count saturates just above the maximum. */
  function Use(bucket: Bucket, max: int): (r: (Bucket, Answer)) {
    var used := bucket.(count := Min(max + 1, bucket.count + 1));
    (used, Answer(used.count <= max, Max(0, max - used.count), used.resetAt))
  }

  /** The table after the key's own expired bucket is dropped and a due sweep done. */
  function Swept(t: Table, capacity: nat, call: Call): Table {
    var own := if call.key in t.buckets && t.buckets[call.key].resetAt <= call.now
               then t.buckets - {call.key} else t.buckets;
    if call.key !in own && |own| >= capacity && call.now - t.lastSweep >= 1000
    then Table(Unexpired(own, call.now), call.now)
    else Table(own, t.lastSweep)
  }

  function Step(t: Table, capacity: nat, call: Call): (Table, Outcome) {
    var s := Swept(t, capacity, call);
    if call.key in s.buckets then
      var (used, answer) := Use(s.buckets[call.key], call.max);
      (s.(buckets := s.buckets[call.key := used]), Outcome(answer, false))
    else if |s.buckets| >= capacity then
      (s, Outcome(Answer(false, 0, call.now + 1000), true))
    else
      var (used, answer) := Use(Bucket(0, call.now + call.window), call.max);
      (s.(buckets := s.buckets[call.key := used]), Outcome(answer, false))
  }

  class WindowLimiter {
    var buckets: map<string, Bucket>
    var lastSweep: int
    const capacity: nat

    function Contents(): Table
      reads this
    {
      Table(buckets, lastSweep)
    }

    constructor (capacity: nat := 10_000)
      ensures Contents() == EMPTY && this.capacity == capacity
    {
      buckets := map[];
      lastSweep := 0;
      this.capacity := capacity;
    }

    /** The sweep: every bucket whose window has passed is deleted. */
    method Sweep(now: int)
      modifies this`buckets
      ensures buckets == Unexpired(old(buckets), now)
    {
      var keys := buckets.Keys;
      while keys != {}
        invariant keys <= old(buckets).Keys && buckets.Keys <= old(buckets).Keys
        invariant keys <= buckets.Keys
        invariant forall k :: k in buckets ==> buckets[k] == old(buckets)[k]
        invariant forall k :: k in old(buckets).Keys - keys ==> (k in buckets <==> old(buckets)[k].resetAt > now)
        decreases keys
      {
        var identity :| identity in keys;
        if buckets[identity].resetAt <= now {
          buckets := buckets - {identity};
        }
        keys := keys - {identity};
      }
    }

    method Consume(key: string, max: int, window: int, now: int) returns (outcome: Outcome)
      modifies this
      ensures (Contents(), outcome) == Step(old(Contents()), capacity, Call(key, max, window, now))
    {
      var bucket: Option<Bucket> := if key in buckets then Some(buckets[key]) else None;
      if bucket.Some? && bucket.value.resetAt <= now {
        buckets := buckets - {key};
        bucket := None;
      }
      if bucket.None? {
        if |buckets| >= capacity && now - lastSweep >= 1000 {
          lastSweep := now;
          Sweep(now);
        }
        if |buckets| >= capacity {
          return Outcome(Answer(false, 0, now + 1000), true);
        }
        bucket := Some(Bucket(0, now + window));
      }
      var used := bucket.value.(count := Min(max + 1, bucket.value.count + 1));
      buckets := buckets[key := used];
      return Outcome(Answer(used.count <= max, Max(0, max - used.count), used.resetAt), false);
    }
  }

  // ---- Runs ----

  function After(capacity: nat, calls: seq<Call>): Table {
    if calls == [] then EMPTY
    else Step(After(capacity, calls[..|calls| - 1]), capacity, calls[|calls| - 1]).0
  }

  /** The outcome of the call that follows `calls`. */
  function Next(capacity: nat, calls: seq<Call>, call: Call): Outcome {
    Step(After(capacity, calls), capacity, call).1
  }

  lemma SweptShrinks(t: Table, capacity: nat, call: Call)
    ensures Swept(t, capacity, call).buckets.Keys <= t.buckets.Keys
    ensures |Swept(t, capacity, call).buckets| <= |t.buckets|
    ensures forall k :: k in Swept(t, capacity, call).buckets ==> Swept(t, capacity, call).buckets[k] == t.buckets[k]
    ensures forall k :: k in t.buckets && t.buckets[k].resetAt > call.now ==> k in Swept(t, capacity, call).buckets
    ensures call.key in Swept(t, capacity, call).buckets ==> t.buckets[call.key].resetAt > call.now
  {
    SubsetSize(Swept(t, capacity, call).buckets.Keys, t.buckets.Keys);
  }

  lemma {:induction false} SubsetSize<T>(a: set<T>, b: set<T>)
    requires a <= b
    ensures |a| <= |b|
    ensures a != b ==> |a| < |b|
  {
    assert b == a + (b - a);
    if a != b {
      var x :| x in b - a;
    }
  }

  /** Memory is bounded on every run, whatever the keys, limits and times. */
  lemma {:induction false} NeverOverCapacity(capacity: nat, calls: seq<Call>)
    ensures |After(capacity, calls).buckets| <= capacity
  {
    if calls != [] {
      var init, last := calls[..|calls| - 1], calls[|calls| - 1];
      NeverOverCapacity(capacity, init);
      SweptShrinks(After(capacity, init), capacity, last);
    }
  }

  /** A live bucket survives every call: untouched when the call is another key's,
      one use older when it is its own. */
  lemma LiveBucketKept(t: Table, capacity: nat, call: Call, key: string)
    requires key in t.buckets && t.buckets[key].resetAt > call.now
    ensures key in Step(t, capacity, call).0.buckets
    ensures Step(t, capacity, call).0.buckets[key] ==
            if key == call.key then Use(t.buckets[key], call.max).0 else t.buckets[key]
    ensures key == call.key ==> !Step(t, capacity, call).1.full
  {
    SweptShrinks(t, capacity, call);
  }

  function Keys(calls: seq<Call>): set<string> {
    if calls == [] then {} else Keys(calls[..|calls| - 1]) + {calls[|calls| - 1].key}
  }

  lemma StepKeys(t: Table, capacity: nat, call: Call)
    ensures Step(t, capacity, call).0.buckets.Keys <= t.buckets.Keys + {call.key}
  {
    SweptShrinks(t, capacity, call);
  }

  lemma KeysAppend(calls: seq<Call>, call: Call)
    ensures Keys(calls + [call]) == Keys(calls) + {call.key}
  {
    assert (calls + [call])[..|calls|] == calls;
  }

  lemma {:induction false} KeysWithin(calls: seq<Call>, keys: set<string>)
    requires forall c :: c in calls ==> c.key in keys
    ensures Keys(calls) <= keys
  {
    if calls != [] {
      KeysWithin(calls[..|calls| - 1], keys);
      assert calls[|calls| - 1] in calls;
    }
  }

  lemma {:induction false} BucketsAreCalledKeys(capacity: nat, calls: seq<Call>)
    ensures After(capacity, calls).buckets.Keys <= Keys(calls)
  {
    if calls != [] {
      BucketsAreCalledKeys(capacity, calls[..|calls| - 1]);
      AfterKeys(capacity, calls);
    }
  }

  lemma AfterKeys(capacity: nat, calls: seq<Call>)
    requires calls != []
    ensures After(capacity, calls).buckets.Keys <= After(capacity, calls[..|calls| - 1]).buckets.Keys + {calls[|calls| - 1].key}
  {
    StepKeys(After(capacity, calls[..|calls| - 1]), capacity, calls[|calls| - 1]);
  }

  /** With no more distinct keys than buckets, nobody is ever refused for capacity. */
  lemma NoRefusalWithinCapacity(capacity: nat, calls: seq<Call>, call: Call)
    requires |Keys(calls + [call])| <= capacity
    ensures !Next(capacity, calls, call).full
  {
    var t := After(capacity, calls);
    var s := Swept(t, capacity, call);
    BucketsAreCalledKeys(capacity, calls);
    SweptShrinks(t, capacity, call);
    if call.key !in s.buckets {
      KeysAppend(calls, call);
      SubsetSize(s.buckets.Keys, Keys(calls) + {call.key});
    }
  }

  // ---- One key on its own ----

  ghost predicate Nondecreasing(calls: seq<Call>) {
    forall i, j :: 0 <= i < j < |calls| ==> calls[i].now <= calls[j].now
  }

  /** A counter for a single key: no table, no capacity, no sweep. */
  function OneStep(b: Option<Bucket>, call: Call): (Bucket, Answer) {
    if b.Some? && b.value.resetAt > call.now then Use(b.value, call.max)
    else Use(Bucket(0, call.now + call.window), call.max)
  }

  function OneAfter(calls: seq<Call>): Option<Bucket> {
    if calls == [] then None
    else Some(OneStep(OneAfter(calls[..|calls| - 1]), calls[|calls| - 1]).0)
  }

  function OneAnswers(calls: seq<Call>): (r: seq<Answer>)
    ensures |r| == |calls|
  {
    if calls == [] then []
    else OneAnswers(calls[..|calls| - 1]) + [OneStep(OneAfter(calls[..|calls| - 1]), calls[|calls| - 1]).1]
  }

  /** The calls of a key that found a bucket, and their answers. */
  function Served(capacity: nat, calls: seq<Call>, key: string): (r: (seq<Call>, seq<Answer>))
    ensures |r.0| == |r.1|
  {
    if calls == [] then ([], [])
    else
      var init, last := calls[..|calls| - 1], calls[|calls| - 1];
      var (cs, answers) := Served(capacity, init, key);
      var outcome := Next(capacity, init, last);
      if last.key == key && !outcome.full then (cs + [last], answers + [outcome.answer]) else (cs, answers)
  }

  /** The bucket a key would have if it did not share the table. */
  function Private(capacity: nat, calls: seq<Call>, key: string): Option<Bucket> {
    OneAfter(Served(capacity, calls, key).0)
  }

  /** The table has lost a bucket that the clock reading `now` still lies in. */
  predicate Forgotten(t: Table, key: string, one: Option<Bucket>, now: int) {
    key !in t.buckets && one.Some? && now < one.value.resetAt
  }

  /** The next call of the key is served and finds its running window forgotten. */
  predicate Lapse(capacity: nat, calls: seq<Call>, call: Call, key: string) {
    && call.key == key && !Next(capacity, calls, call).full
    && Forgotten(After(capacity, calls), key, Private(capacity, calls, key), call.now)
  }

  ghost predicate NoLapse(capacity: nat, calls: seq<Call>, key: string) {
    forall i :: 0 <= i < |calls| ==> !Lapse(capacity, calls[..i], calls[i], key)
  }

  lemma NoLapseOfLast(capacity: nat, calls: seq<Call>, key: string)
    requires calls != []
    ensures var init, last := calls[..|calls| - 1], calls[|calls| - 1];
            NoLapse(capacity, calls, key) <==> NoLapse(capacity, init, key) && !Lapse(capacity, init, last, key)
  {
    var n := |calls| - 1;
    if NoLapse(capacity, calls[..n], key) && !Lapse(capacity, calls[..n], calls[n], key) {
      NoLapseExtends(capacity, calls, key);
    }
    if NoLapse(capacity, calls, key) {
      NoLapseBefore(capacity, calls, key);
    }
  }

  lemma NoLapseExtends(capacity: nat, calls: seq<Call>, key: string)
    requires calls != []
    requires var n := |calls| - 1; NoLapse(capacity, calls[..n], key) && !Lapse(capacity, calls[..n], calls[n], key)
    ensures NoLapse(capacity, calls, key)
  {
    var init := calls[..|calls| - 1];
    forall i | 0 <= i < |calls| ensures !Lapse(capacity, calls[..i], calls[i], key) {
      if i < |init| {
        assert init[..i] == calls[..i] && init[i] == calls[i];
        assert !Lapse(capacity, init[..i], init[i], key);
      }
    }
  }

  lemma NoLapseBefore(capacity: nat, calls: seq<Call>, key: string)
    requires calls != [] && NoLapse(capacity, calls, key)
    ensures var n := |calls| - 1; NoLapse(capacity, calls[..n], key) && !Lapse(capacity, calls[..n], calls[n], key)
  {
    var init := calls[..|calls| - 1];
    forall i | 0 <= i < |init| ensures !Lapse(capacity, init[..i], init[i], key) {
      assert init[..i] == calls[..i] && init[i] == calls[i];
      assert !Lapse(capacity, calls[..i], calls[i], key);
    }
    assert !Lapse(capacity, calls[..|init|], calls[|init|], key);
  }

  /** While nothing lapses, table and private counter hold the same bucket, and what the
      table lacks was deleted by a sweep after its window. */
  ghost predicate Linked(t: Table, key: string, one: Option<Bucket>) {
    if key in t.buckets then one == Some(t.buckets[key])
    else one.Some? ==> one.value.resetAt <= t.lastSweep
  }

  lemma StepLinked(t: Table, capacity: nat, call: Call, key: string, one: Option<Bucket>)
    requires Linked(t, key, one) && |t.buckets| <= capacity
    requires call.key == key && !Step(t, capacity, call).1.full ==> !Forgotten(t, key, one, call.now)
    ensures var (t', outcome) := Step(t, capacity, call);
            if call.key == key && !outcome.full
            then outcome.answer == OneStep(one, call).1 && Linked(t', key, Some(OneStep(one, call).0))
            else Linked(t', key, one)
  {
    SweptShrinks(t, capacity, call);
    if call.key in t.buckets && t.buckets[call.key].resetAt <= call.now {
      assert |(t.buckets - {call.key}).Keys| < |t.buckets.Keys| by {
        SubsetSize((t.buckets - {call.key}).Keys, t.buckets.Keys);
      }
    }
  }

  lemma ServedAndPrivate(capacity: nat, calls: seq<Call>, key: string)
    requires calls != []
    ensures var init, last := calls[..|calls| - 1], calls[|calls| - 1];
            var (t', outcome) := Step(After(capacity, init), capacity, last);
            var (was, one) := (Served(capacity, init, key), Private(capacity, init, key));
            var (cs, answers) := Served(capacity, calls, key);
            && After(capacity, calls) == t'
            && if last.key == key && !outcome.full
               then cs == was.0 + [last] && answers == was.1 + [outcome.answer]
                    && Private(capacity, calls, key) == Some(OneStep(one, last).0)
                    && OneAnswers(cs) == OneAnswers(was.0) + [OneStep(one, last).1]
               else (cs, answers) == was && Private(capacity, calls, key) == one
  {
    var was := Served(capacity, calls[..|calls| - 1], key).0;
    assert (was + [calls[|calls| - 1]])[..|was|] == was;
  }

  lemma {:induction false} RunLinked(capacity: nat, calls: seq<Call>, key: string)
    requires NoLapse(capacity, calls, key)
    ensures Linked(After(capacity, calls), key, Private(capacity, calls, key))
    ensures Served(capacity, calls, key).1 == OneAnswers(Served(capacity, calls, key).0)
  {
    if calls != [] {
      var init, last := calls[..|calls| - 1], calls[|calls| - 1];
      NoLapseOfLast(capacity, calls, key);
      RunLinked(capacity, init, key);
      NeverOverCapacity(capacity, init);
      StepLinked(After(capacity, init), capacity, last, key, Private(capacity, init, key));
      ServedAndPrivate(capacity, calls, key);
    }
  }

  /** Sharing the table changes nothing while nothing lapses, whatever the clock does:
      the answers a key gets on the calls that were not refused for capacity are those
      of a private counter. */
  lemma SharedEqualsPrivate(capacity: nat, calls: seq<Call>, key: string)
    requires NoLapse(capacity, calls, key)
    ensures Served(capacity, calls, key).1 == OneAnswers(Served(capacity, calls, key).0)
  {
    RunLinked(capacity, calls, key);
  }

  ghost predicate AsksForSome(calls: seq<Call>, key: string) {
    forall i :: 0 <= i < |calls| && calls[i].key == key ==> calls[i].max >= 1
  }

  lemma {:induction false} PrivateCounts(capacity: nat, calls: seq<Call>, key: string)
    requires AsksForSome(calls, key)
    ensures Private(capacity, calls, key).Some? ==> Private(capacity, calls, key).value.count >= 1
  {
    if calls != [] {
      var init, last := calls[..|calls| - 1], calls[|calls| - 1];
      PrivateCounts(capacity, init, key);
      PrivateOfLast(capacity, calls, key);
      if last.key == key {
        OneStepCounts(Private(capacity, init, key), last);
      }
    }
  }

  lemma PrivateOfLast(capacity: nat, calls: seq<Call>, key: string)
    requires calls != []
    ensures var init, last := calls[..|calls| - 1], calls[|calls| - 1];
            Private(capacity, calls, key) ==
            if last.key == key && !Next(capacity, init, last).full
            then Some(OneStep(Private(capacity, init, key), last).0) else Private(capacity, init, key)
  {
    ServedAndPrivate(capacity, calls, key);
  }

  lemma OneStepCounts(b: Option<Bucket>, call: Call)
    requires call.max >= 1 && (b.Some? ==> b.value.count >= 1)
    ensures OneStep(b, call).0.count >= 1
  {
  }

  /** A lapse shows: the shared table counts from one, the private counter goes on. */
  lemma LapseShows(t: Table, capacity: nat, call: Call, one: Option<Bucket>)
    requires Forgotten(t, call.key, one, call.now) && one.value.count >= 1 && call.max >= 1
    requires !Step(t, capacity, call).1.full
    ensures Step(t, capacity, call).1.answer != OneStep(one, call).1
  {
    SweptShrinks(t, capacity, call);
  }

  ghost predicate SameAnswers(capacity: nat, calls: seq<Call>, key: string) {
    Served(capacity, calls, key).1 == OneAnswers(Served(capacity, calls, key).0)
  }

  lemma SameAnswersOfLast(capacity: nat, calls: seq<Call>, key: string)
    requires calls != []
    ensures var init, last := calls[..|calls| - 1], calls[|calls| - 1];
            var outcome := Next(capacity, init, last);
            SameAnswers(capacity, calls, key) <==>
              && SameAnswers(capacity, init, key)
              && (last.key == key && !outcome.full ==> outcome.answer == OneStep(Private(capacity, init, key), last).1)
  {
    var init, last := calls[..|calls| - 1], calls[|calls| - 1];
    ServedAndPrivate(capacity, calls, key);
    var (cs, answers) := Served(capacity, init, key);
    EqualWithLast(answers, OneAnswers(cs), Next(capacity, init, last).answer, OneStep(Private(capacity, init, key), last).1);
  }

  lemma EqualWithLast(a: seq<Answer>, b: seq<Answer>, x: Answer, y: Answer)
    requires |a| == |b|
    ensures a + [x] == b + [y] <==> a == b && x == y
  {
    assert (a + [x])[..|a|] == a && (b + [y])[..|b|] == b;
    assert (a + [x])[|a|] == x && (b + [y])[|b|] == y;
  }

  /** The answer to one call: the private counter's exactly unless the call is a lapse. */
  lemma AnswerUnlessLapse(capacity: nat, calls: seq<Call>, call: Call)
    requires NoLapse(capacity, calls, call.key) && AsksForSome(calls, call.key) && call.max >= 1
    requires !Next(capacity, calls, call).full
    ensures Next(capacity, calls, call).answer == OneStep(Private(capacity, calls, call.key), call).1
            <==> !Lapse(capacity, calls, call, call.key)
  {
    var t, one := After(capacity, calls), Private(capacity, calls, call.key);
    RunLinked(capacity, calls, call.key);
    NeverOverCapacity(capacity, calls);
    if Forgotten(t, call.key, one, call.now) {
      PrivateCounts(capacity, calls, call.key);
      LapseShows(t, capacity, call, one);
    } else {
      StepLinked(t, capacity, call, call.key, one);
    }
  }

  /** Sharing is invisible to a key exactly when none of its served calls comes back, at
      a clock reading inside its running window, after a sweep has deleted its bucket. */
  lemma {:induction false} SharedEqualsPrivateExactly(capacity: nat, calls: seq<Call>, key: string)
    requires AsksForSome(calls, key)
    ensures SameAnswers(capacity, calls, key) <==> NoLapse(capacity, calls, key)
  {
    if calls != [] {
      var init, last := calls[..|calls| - 1], calls[|calls| - 1];
      SharedEqualsPrivateExactly(capacity, init, key);
      NoLapseOfLast(capacity, calls, key);
      SameAnswersOfLast(capacity, calls, key);
      if NoLapse(capacity, init, key) && last.key == key && !Next(capacity, init, last).full {
        AnswerUnlessLapse(capacity, init, last);
      }
    }
  }

  /** What a caller can check: a key called only at readings not before the last sweep
      never sees a lapse, whatever the clock does between its calls. */
  lemma {:induction false} AfterSweepNoLapse(capacity: nat, calls: seq<Call>, key: string)
    requires forall i :: 0 <= i < |calls| && calls[i].key == key ==> calls[i].now >= After(capacity, calls[..i]).lastSweep
    ensures NoLapse(capacity, calls, key)
  {
    if calls != [] {
      var n := |calls| - 1;
      var init := calls[..n];
      assert forall i :: 0 <= i < n ==> init[..i] == calls[..i] && init[i] == calls[i];
      AfterSweepNoLapse(capacity, init, key);
      RunLinked(capacity, init, key);
      NoLapseOfLast(capacity, calls, key);
    }
  }

  ghost predicate Agrees(t: Table, key: string, one: Option<Bucket>, now: int) {
    if key in t.buckets then one == Some(t.buckets[key])
    else one.Some? ==> one.value.resetAt <= now
  }

  lemma StepAgrees(t: Table, capacity: nat, call: Call, key: string, one: Option<Bucket>, before: int)
    requires Agrees(t, key, one, before) && before <= call.now
    ensures var (t', outcome) := Step(t, capacity, call);
            if call.key == key && !outcome.full
            then Agrees(t', key, Some(OneStep(one, call).0), call.now)
            else Agrees(t', key, one, call.now)
  {
    SweptShrinks(t, capacity, call);
  }

  /** A clock that does not run backwards forgets no running window. */
  lemma {:induction false} ForwardClockNoLapse(capacity: nat, calls: seq<Call>, key: string)
    requires Nondecreasing(calls)
    ensures NoLapse(capacity, calls, key)
    ensures calls != [] ==> Agrees(After(capacity, calls), key, Private(capacity, calls, key), calls[|calls| - 1].now)
  {
    if calls != [] {
      var init, last := calls[..|calls| - 1], calls[|calls| - 1];
      ForwardClockNoLapse(capacity, init, key);
      NoLapseOfLast(capacity, calls, key);
      var before := if init == [] then last.now else init[|init| - 1].now;
      StepAgrees(After(capacity, init), capacity, last, key, Private(capacity, init, key), before);
      ServedAndPrivate(capacity, calls, key);
    }
  }

  /** Nothing of the key's bucket is missing in the table. */
  ghost predicate Kept(t: Table, key: string, one: Option<Bucket>) {
    if key in t.buckets then one == Some(t.buckets[key]) else one.None?
  }

  lemma StepKept(t: Table, capacity: nat, call: Call, key: string, one: Option<Bucket>)
    requires Kept(t, key, one) && |t.buckets.Keys + {call.key}| <= capacity
    ensures var (t', outcome) := Step(t, capacity, call);
            if call.key == key then Kept(t', key, Some(OneStep(one, call).0)) && !outcome.full else Kept(t', key, one)
  {
    var own := if call.key in t.buckets && t.buckets[call.key].resetAt <= call.now then t.buckets - {call.key} else t.buckets;
    if call.key !in own {
      SubsetSize(own.Keys + {call.key}, t.buckets.Keys + {call.key});
      assert |own.Keys + {call.key}| == |own.Keys| + 1;
      assert |own| == |own.Keys|;
    }
  }

  /** With no more distinct keys than buckets no sweep ever happens, so that nothing
      lapses even when the clock runs backwards. */
  lemma {:induction false} FewKeysNoLapse(capacity: nat, calls: seq<Call>, key: string)
    requires |Keys(calls)| <= capacity
    ensures NoLapse(capacity, calls, key) && Kept(After(capacity, calls), key, Private(capacity, calls, key))
  {
    if calls != [] {
      var init, last := calls[..|calls| - 1], calls[|calls| - 1];
      SubsetSize(Keys(init), Keys(calls));
      FewKeysNoLapse(capacity, init, key);
      NoLapseOfLast(capacity, calls, key);
      BucketsAreCalledKeys(capacity, init);
      SubsetSize(After(capacity, init).buckets.Keys + {last.key}, Keys(calls));
      StepKept(After(capacity, init), capacity, last, key, Private(capacity, init, key));
      ServedAndPrivate(capacity, calls, key);
    }
  }

  lemma ServedAppend(capacity: nat, calls: seq<Call>, call: Call, key: string)
    ensures var (cs, answers) := Served(capacity, calls, key);
            var outcome := Next(capacity, calls, call);
            Served(capacity, calls + [call], key) ==
            if call.key == key && !outcome.full then (cs + [call], answers + [outcome.answer]) else (cs, answers)
    ensures After(capacity, calls + [call]) == Step(After(capacity, calls), capacity, call).0
  {
    assert (calls + [call])[..|calls|] == calls;
  }

  /** A lapse: here the call of `c.key` at time 2000 sweeps
      the other two buckets, and `a.key` is admitted again at time 500, inside its
      first window, where a private counter refuses it. */
  lemma SharedDiffersWhenClockRunsBack(a: Call, b: Call, c: Call, again: Call)
    requires a.key != b.key && b.key != c.key && a.key != c.key
    requires a == Call(a.key, 1, 1000, 0) && b == Call(b.key, 1, 1000, 0)
    requires c == Call(c.key, 1, 1000, 2000) && again == Call(a.key, 1, 1000, 500)
    ensures var (cs, answers) := Served(2, [] + [a] + [b] + [c] + [again], a.key);
            |answers| == |OneAnswers(cs)| == 2 && answers[1].allowed && !OneAnswers(cs)[1].allowed
  {
    FirstThree(a, b, c);
    ClearedBySweep(c, again, a.key, b.key);
    ServedLast([] + [a] + [b] + [c], again, Step(FullTable(a.key, b.key), 2, c).0, Answer(true, 0, 1500));
    PrivateRefuses(a, again);
  }

  lemma PrivateRefuses(a: Call, again: Call)
    requires a == Call(a.key, 1, 1000, 0) && again == Call(a.key, 1, 1000, 500)
    ensures !OneAnswers([a] + [again])[1].allowed
  {
    assert [a] + [again] == [a, again];
    OneAnswersOfTwo(a, again);
  }

  lemma ServedLast(calls: seq<Call>, call: Call, t: Table, answer: Answer)
    requires After(2, calls) == t && Step(t, 2, call).1 == Outcome(answer, false)
    ensures Served(2, calls + [call], call.key) ==
            (Served(2, calls, call.key).0 + [call], Served(2, calls, call.key).1 + [answer])
  {
    ServedAppend(2, calls, call, call.key);
  }

  lemma FirstThree(a: Call, b: Call, c: Call)
    requires a == Call(a.key, 1, 1000, 0) && b == Call(b.key, 1, 1000, 0)
    requires a.key != b.key && b.key != c.key && a.key != c.key
    ensures After(2, [] + [a] + [b] + [c]) == Step(FullTable(a.key, b.key), 2, c).0
    ensures Served(2, [] + [a] + [b] + [c], a.key) == ([a], [Answer(true, 0, 1000)])
  {
    TwoBuckets(a.key, b.key);
    assert [] + [a] == [a];
    assert [] + [Answer(true, 0, 1000)] == [Answer(true, 0, 1000)];
    ServedAppend(2, [], a, a.key);
    ServedAppend(2, [] + [a], b, a.key);
    ServedAppend(2, [] + [a] + [b], c, a.key);
  }

  function FullTable(x: string, y: string): Table {
    Table(map[x := Bucket(1, 1000), y := Bucket(1, 1000)], 0)
  }

  lemma TwoBuckets(x: string, y: string)
    requires x != y
    ensures var first := Step(EMPTY, 2, Call(x, 1, 1000, 0));
            && first.1 == Outcome(Answer(true, 0, 1000), false)
            && Step(first.0, 2, Call(y, 1, 1000, 0)).0 == FullTable(x, y)
    ensures |FullTable(x, y).buckets| == 2
  {
    var one := map[x := Bucket(1, 1000)];
    assert one.Keys == {x};
    assert |one| == 1;
    assert Step(EMPTY, 2, Call(x, 1, 1000, 0)).0.buckets == one;
    assert FullTable(x, y).buckets.Keys == {x, y};
    assert |FullTable(x, y).buckets| == |FullTable(x, y).buckets.Keys|;
  }

  lemma ClearedBySweep(c: Call, again: Call, x: string, y: string)
    requires c.key != x && c.key != y && x != y && |FullTable(x, y).buckets| == 2
    requires c == Call(c.key, 1, 1000, 2000) && again == Call(x, 1, 1000, 500)
    ensures var swept := Step(FullTable(x, y), 2, c).0;
            Step(swept, 2, again).1 == Outcome(Answer(true, 0, 1500), false)
  {
    var full := FullTable(x, y);
    SweepClears(full, c);
    AdmittedAgain(c.key, again);
  }

  lemma SweepClears(full: Table, c: Call)
    requires c.key !in full.buckets && |full.buckets| == 2 && full.lastSweep == 0
    requires forall k :: k in full.buckets ==> full.buckets[k].resetAt == 1000
    requires c == Call(c.key, 1, 1000, 2000)
    ensures Step(full, 2, c).0 == Table(map[c.key := Bucket(1, 3000)], 2000)
  {
    assert Unexpired(full.buckets, 2000) == map[];
    assert Swept(full, 2, c) == Table(map[], 2000);
    var none: map<string, Bucket> := map[];
    assert none[c.key := Bucket(1, 3000)] == map[c.key := Bucket(1, 3000)];
  }

  lemma AdmittedAgain(other: string, again: Call)
    requires other != again.key && again == Call(again.key, 1, 1000, 500)
    ensures Step(Table(map[other := Bucket(1, 3000)], 2000), 2, again).1 == Outcome(Answer(true, 0, 1500), false)
  {
    var swept := Table(map[other := Bucket(1, 3000)], 2000);
    assert swept.buckets.Keys == {other};
    assert |swept.buckets| == 1;
    assert Swept(swept, 2, again) == swept;
  }

  lemma OneAnswersOfTwo(a: Call, b: Call)
    ensures OneAnswers([a, b]) == [OneStep(None, a).1, OneStep(Some(OneStep(None, a).0), b).1]
  {
    assert [a, b][..1] == [a] && [a][..0] == [];
    assert OneAnswers([a]) == [] + [OneStep(None, a).1];
  }

  // ---- When a call is refused for want of a bucket ----

  predicate IsLive(t: Table, key: string, now: int) { key in t.buckets && t.buckets[key].resetAt > now }

  function LiveOthers(t: Table, key: string, now: int): set<string> { set k | k in t.buckets && k != key && IsLive(t, k, now) }

  /** The call needs a bucket, finds none free, and the last sweep was a second ago or more. */
  predicate SweepsNow(t: Table, capacity: nat, call: Call) {
    !IsLive(t, call.key, call.now) && |t.buckets.Keys - {call.key}| >= capacity && call.now - t.lastSweep >= 1000
  }

  /** A call is refused exactly when its key has no running window and the other keys fill
      the table: those with a running window when a sweep is due, and all of them until
      then.  A sweep deletes exactly the others whose window is over. */
  lemma RefusedExactly(t: Table, capacity: nat, call: Call)
    ensures var (t', outcome) := Step(t, capacity, call);
            && (outcome.full <==>
                  && !IsLive(t, call.key, call.now) && |t.buckets.Keys - {call.key}| >= capacity
                  && (call.now - t.lastSweep >= 1000 ==> |LiveOthers(t, call.key, call.now)| >= capacity))
            && (forall k :: k != call.key ==>
                  (k in t'.buckets <==> if SweepsNow(t, capacity, call) then IsLive(t, k, call.now) else k in t.buckets))
            && t'.lastSweep == (if SweepsNow(t, capacity, call) then call.now else t.lastSweep)
            && (call.key in t'.buckets <==> !outcome.full)
  {
    if !IsLive(t, call.key, call.now) {
      SweptOthers(t, capacity, call);
    }
  }

  /** What a call with no running window of its own leaves of the table before it is served. */
  lemma SweptOthers(t: Table, capacity: nat, call: Call)
    requires !IsLive(t, call.key, call.now)
    ensures var s := Swept(t, capacity, call);
            var kept := if SweepsNow(t, capacity, call) then LiveOthers(t, call.key, call.now) else t.buckets.Keys - {call.key};
            && s.buckets.Keys == kept && |s.buckets| == |kept|
            && s.lastSweep == (if SweepsNow(t, capacity, call) then call.now else t.lastSweep)
  {
    var own := if call.key in t.buckets && t.buckets[call.key].resetAt <= call.now then t.buckets - {call.key} else t.buckets;
    assert own.Keys == t.buckets.Keys - {call.key} && |own| == |own.Keys|;
    assert Unexpired(own, call.now).Keys == LiveOthers(t, call.key, call.now);
    assert |Unexpired(own, call.now)| == |Unexpired(own, call.now).Keys|;
  }

  // ---- What each call is answered ----

  /** The call that opened the window call `n` falls into, told from times alone: a window
      lasts from the call that opens it, and the first call after its end opens the next. */
  function OpenedBy(calls: seq<Call>, n: nat): (k: nat)
    requires n < |calls|
    ensures k <= n
  {
    if n == 0 then 0
    else
      var k := OpenedBy(calls, n - 1);
      if calls[n].now < calls[k].now + calls[k].window then k else n
  }

  /** A counter of its own answers: the first `max` calls of a window are allowed, with
      the number that is left, and no more until the window ends. */
  function ExpectedAnswer(calls: seq<Call>, n: nat, max: int): Answer
    requires n < |calls|
  {
    var k := OpenedBy(calls, n);
    var used := n - k + 1;
    Answer(used <= max, if used <= max then max - used else 0, calls[k].now + calls[k].window)
  }

  function ExpectedBucket(calls: seq<Call>, n: nat, max: int): Bucket
    requires n < |calls|
  {
    var k := OpenedBy(calls, n);
    Bucket(Min(max + 1, n - k + 1), calls[k].now + calls[k].window)
  }

  lemma StepsAsExpected(calls: seq<Call>, n: nat, max: int)
    requires n < |calls| && calls[n].max == max
    requires OneAfter(calls[..n]) == if n == 0 then None else Some(ExpectedBucket(calls, n - 1, max))
    ensures OneStep(OneAfter(calls[..n]), calls[n]) == (ExpectedBucket(calls, n, max), ExpectedAnswer(calls, n, max))
  {
    if n == 0 {
      UseOnce(None, calls[n], 0, calls[n].now + calls[n].window, max);
    } else {
      var k := OpenedBy(calls, n - 1);
      UseOnce(OneAfter(calls[..n]), calls[n], n - k, calls[k].now + calls[k].window, max);
    }
  }

  lemma {:induction false} BucketAt(calls: seq<Call>, n: nat, max: int)
    requires n < |calls| && forall i :: 0 <= i < |calls| ==> calls[i].max == max
    ensures OneAfter(calls[..n + 1]) == Some(ExpectedBucket(calls, n, max))
    ensures OneStep(OneAfter(calls[..n]), calls[n]).1 == ExpectedAnswer(calls, n, max)
  {
    if n > 0 {
      BucketAt(calls, n - 1, max);
    }
    AfterOneMore(calls, n);
    StepsAsExpected(calls, n, max);
  }

  lemma AfterOneMore(calls: seq<Call>, n: nat)
    requires n < |calls|
    ensures OneAfter(calls[..n + 1]) == Some(OneStep(OneAfter(calls[..n]), calls[n]).0)
    ensures n == 0 ==> OneAfter(calls[..n]) == None
  {
    assert calls[..n + 1][..n] == calls[..n];
  }

  /** One more call, when the bucket has `used` uses and ends at `end`. */
  lemma UseOnce(b: Option<Bucket>, call: Call, used: nat, end: int, max: int)
    requires call.max == max && (b.Some? ==> b.value == Bucket(Min(max + 1, used), end) && used > 0)
    ensures var goesOn := b.Some? && call.now < end;
            var now := if goesOn then used + 1 else 1;
            var until := if goesOn then end else call.now + call.window;
            OneStep(b, call) == (Bucket(Min(max + 1, now), until), Answer(now <= max, if now <= max then max - now else 0, until))
  {
  }

  lemma PrivateAnswers(calls: seq<Call>, n: nat, max: int)
    requires n < |calls| && forall i :: 0 <= i < |calls| ==> calls[i].max == max
    ensures OneAnswers(calls)[n] == ExpectedAnswer(calls, n, max)
  {
    BucketAt(calls, n, max);
    AnswerAt(calls, n);
  }

  ghost predicate SameMax(calls: seq<Call>, key: string, max: int) {
    forall i :: 0 <= i < |calls| && calls[i].key == key ==> calls[i].max == max
  }

  lemma {:induction false} ServedSameMax(capacity: nat, calls: seq<Call>, key: string, max: int)
    requires SameMax(calls, key, max)
    ensures forall i :: 0 <= i < |Served(capacity, calls, key).0| ==> Served(capacity, calls, key).0[i].max == max
  {
    if calls != [] {
      var init, last := calls[..|calls| - 1], calls[|calls| - 1];
      ServedSameMax(capacity, init, key, max);
      ServedAndPrivate(capacity, calls, key);
    }
  }

  /** Through the shared table too, when none of the key's calls lapses: each served call
      is answered by its place in its window, under any clock; one refused for want of a
      bucket is told to come back in a second. */
  lemma SharedAnswers(capacity: nat, calls: seq<Call>, key: string, max: int, n: nat, call: Call)
    requires NoLapse(capacity, calls, key) && SameMax(calls, key, max) && n < |Served(capacity, calls, key).1|
    ensures Served(capacity, calls, key).1[n] == ExpectedAnswer(Served(capacity, calls, key).0, n, max)
    ensures Next(capacity, calls, call).full ==> Next(capacity, calls, call).answer == Answer(false, 0, call.now + 1000)
  {
    SharedEqualsPrivate(capacity, calls, key);
    ServedSameMax(capacity, calls, key, max);
    PrivateAnswers(Served(capacity, calls, key).0, n, max);
  }

  // ---- How many calls one key gets through ----

  /** Allowed calls with `from <= now < to`. */
  function AllowedBetween(calls: seq<Call>, answers: seq<Answer>, from: int, to: int): nat
    requires |calls| == |answers|
  {
    if calls == [] then 0
    else
      var n := |calls| - 1;
      AllowedBetween(calls[..n], answers[..n], from, to)
      + if answers[n].allowed && from <= calls[n].now < to then 1 else 0
  }

  ghost predicate Uniform(calls: seq<Call>, max: int, window: int) {
    forall i :: 0 <= i < |calls| ==> calls[i].max == max && calls[i].window == window
  }

  /** What the bucket tells about the calls allowed in `[from, from + window)`:
      `earlier` bounds those of windows opened before `from`. */
  ghost predicate BucketBounds(b: Bucket, allowed: nat, now: int, max: int, window: int, from: int, earlier: nat) {
    var start := b.resetAt - window;
    && start <= now
    && (window > 0 ==> now < b.resetAt)
    && (now < from ==> allowed == 0)
    && (if 0 <= max then 0 <= b.count <= max + 1 else b.count == max + 1)
    && (if start < from then allowed <= Max(0, Min(b.count, earlier))
        else if start < from + window then allowed <= earlier + Max(0, Min(b.count, max))
        else allowed <= earlier + Max(0, max))
  }

  lemma {:induction false} RunBounds(calls: seq<Call>, max: int, window: int, from: int)
    requires Uniform(calls, max, window) && Nondecreasing(calls) && calls != []
    ensures BucketBounds(OneAfter(calls).value, AllowedBetween(calls, OneAnswers(calls), from, from + window),
                         calls[|calls| - 1].now, max, window, from, Max(0, max))
  {
    var init, last := calls[..|calls| - 1], calls[|calls| - 1];
    assert OneAnswers(calls)[..|init|] == OneAnswers(init);
    var allowed := AllowedBetween(init, OneAnswers(init), from, from + window);
    if init != [] {
      RunBounds(init, max, window, from);
      StepBounds(OneAfter(init), allowed, init[|init| - 1].now, last, from, Max(0, max));
    } else {
      StepBounds(None, allowed, last.now, last, from, Max(0, max));
    }
  }

  lemma StepBounds(b: Option<Bucket>, allowed: nat, before: int, call: Call, from: int, earlier: nat)
    requires before <= call.now
    requires match b
      case None => allowed == 0
      case Some(bucket) => BucketBounds(bucket, allowed, before, call.max, call.window, from, earlier)
    requires || earlier == Max(0, call.max)
             || (b.Some? && b.value.resetAt - call.window >= from)
             || (allowed == 0 && call.now == from && (b.None? || b.value.resetAt <= from))
    ensures var (bucket, answer) := OneStep(b, call);
            var allowed' := allowed + if answer.allowed && from <= call.now < from + call.window then 1 else 0;
            BucketBounds(bucket, allowed', call.now, call.max, call.window, from, earlier)
  {
  }

  /** Over any half-open interval as long as the window, a key gets at most twice its
      maximum through the shared table: over any run, whatever the other keys and the
      refused calls do, in which the key's served calls are in order and none lapses. */
  lemma TwiceMaxPerInterval(capacity: nat, calls: seq<Call>, key: string, max: int, window: int, from: int)
    requires NoLapse(capacity, calls, key) && Nondecreasing(Served(capacity, calls, key).0)
    requires UniformFor(calls, key, max, window)
    ensures var (cs, answers) := Served(capacity, calls, key);
            AllowedBetween(cs, answers, from, from + window) <= 2 * Max(0, max)
  {
    SharedEqualsPrivate(capacity, calls, key);
    ServedUniform(capacity, calls, key, max, window);
    AtMostTwice(Served(capacity, calls, key).0, max, window, from);
  }

  /** The calls of one key all ask for the same limit. */
  ghost predicate UniformFor(calls: seq<Call>, key: string, max: int, window: int) {
    forall i :: 0 <= i < |calls| && calls[i].key == key ==> calls[i].max == max && calls[i].window == window
  }

  lemma AtMostTwice(calls: seq<Call>, max: int, window: int, from: int)
    requires Uniform(calls, max, window) && Nondecreasing(calls)
    ensures AllowedBetween(calls, OneAnswers(calls), from, from + window) <= 2 * Max(0, max)
  {
    if calls != [] {
      RunBounds(calls, max, window, from);
    }
  }

  lemma {:induction false} ServedUniform(capacity: nat, calls: seq<Call>, key: string, max: int, window: int)
    requires UniformFor(calls, key, max, window)
    ensures Uniform(Served(capacity, calls, key).0, max, window)
  {
    if calls != [] {
      var init, last := calls[..|calls| - 1], calls[|calls| - 1];
      ServedUniform(capacity, init, key, max, window);
      assert init + [last] == calls;
      ServedGrows(capacity, init, last, key);
    }
  }

  lemma ServedGrows(capacity: nat, calls: seq<Call>, call: Call, key: string)
    ensures var (was, now) := (Served(capacity, calls, key).0, Served(capacity, calls + [call], key).0);
            now == was || (call.key == key && now == was + [call])
  {
    ServedAppend(capacity, calls, call, key);
  }

  /** Every window that an answer through the shared table reports, from its start to its
      `resetAt`, contains at most the maximum of allowed calls of the key, under the same
      conditions. */
  lemma MaxPerWindow(capacity: nat, calls: seq<Call>, key: string, max: int, window: int, answer: Answer)
    requires NoLapse(capacity, calls, key) && Nondecreasing(Served(capacity, calls, key).0)
    requires UniformFor(calls, key, max, window) && answer in Served(capacity, calls, key).1
    ensures var (cs, answers) := Served(capacity, calls, key);
            AllowedBetween(cs, answers, answer.resetAt - window, answer.resetAt) <= Max(0, max)
  {
    SharedEqualsPrivate(capacity, calls, key);
    ServedUniform(capacity, calls, key, max, window);
    MaxPerReported(Served(capacity, calls, key).0, max, window, answer);
  }

  lemma MaxPerReported(calls: seq<Call>, max: int, window: int, answer: Answer)
    requires Uniform(calls, max, window) && Nondecreasing(calls) && answer in OneAnswers(calls)
    ensures AllowedBetween(calls, OneAnswers(calls), answer.resetAt - window, answer.resetAt) <= Max(0, max)
  {
    var n :| 0 <= n < |calls| && OneAnswers(calls)[n] == answer;
    var k := Opener(calls, n, window);
    MaxFromOpening(calls, k, max, window);
  }

  /** The call that opened the window an answer reports. */
  lemma {:induction false} Opener(calls: seq<Call>, n: nat, window: int) returns (k: nat)
    requires n < |calls| && forall i :: 0 <= i < |calls| ==> calls[i].window == window
    ensures k <= n && OneAnswers(calls)[n].resetAt == calls[k].now + window
    ensures OneAfter(calls[..k]).Some? ==> OneAfter(calls[..k]).value.resetAt <= calls[k].now
  {
    AnswerAt(calls, n);
    var before := OneAfter(calls[..n]);
    if before.Some? && before.value.resetAt > calls[n].now {
      AnswerAt(calls, n - 1);
      k := Opener(calls, n - 1, window);
    } else {
      k := n;
    }
  }

  lemma {:induction false} AnswerAt(calls: seq<Call>, n: nat)
    requires n < |calls|
    ensures OneAnswers(calls)[n] == OneStep(OneAfter(calls[..n]), calls[n]).1
    ensures OneAfter(calls[..n + 1]).Some? && OneAfter(calls[..n + 1]).value.resetAt == OneAnswers(calls)[n].resetAt
  {
    assert calls[..n + 1][..n] == calls[..n];
    if n < |calls| - 1 {
      var init := calls[..|calls| - 1];
      AnswerAt(init, n);
      assert init[..n] == calls[..n] && init[..n + 1] == calls[..n + 1];
    } else {
      assert calls[..n + 1] == calls;
    }
  }

  /** From the call that opens a window to the window's end, at most the maximum:
      `calls[n]` is the call that opens it, any calls come before and after. */
  lemma {:induction false} MaxFromOpening(calls: seq<Call>, n: nat, max: int, window: int)
    requires Uniform(calls, max, window) && Nondecreasing(calls) && n < |calls|
    requires OneAfter(calls[..n]).Some? ==> OneAfter(calls[..n]).value.resetAt <= calls[n].now
    ensures WithinWindow(calls, calls[n].now, max, window)
    ensures AllowedBetween(calls, OneAnswers(calls), calls[n].now, calls[n].now + window) <= Max(0, max)
    decreases |calls|
  {
    if n == |calls| - 1 {
      WindowOpens(calls, max, window);
    } else {
      var init := calls[..|calls| - 1];
      assert init[..n] == calls[..n] && init[n] == calls[n];
      MaxFromOpening(init, n, max, window);
      WindowGoesOn(calls, calls[n].now, max, window);
    }
  }

  /** No window opened before `from` reaches into the one opened at `from`. */
  ghost predicate WithinWindow(calls: seq<Call>, from: int, max: int, window: int) {
    && calls != []
    && var allowed := AllowedBetween(calls, OneAnswers(calls), from, from + window);
       var b := OneAfter(calls).value;
       && allowed <= Max(0, max)
       && BucketBounds(b, allowed, calls[|calls| - 1].now, max, window, from, 0)
       && b.resetAt - window >= from
  }

  lemma WindowOpens(calls: seq<Call>, max: int, window: int)
    requires Uniform(calls, max, window) && Nondecreasing(calls) && calls != []
    requires var before := OneAfter(calls[..|calls| - 1]); before.Some? ==> before.value.resetAt <= calls[|calls| - 1].now
    ensures WithinWindow(calls, calls[|calls| - 1].now, max, window)
  {
    var init, last := calls[..|calls| - 1], calls[|calls| - 1];
    AllowedOfLast(calls, last.now, last.now + window);
    OpeningBounds(init, last, max, window);
  }

  lemma WindowGoesOn(calls: seq<Call>, from: int, max: int, window: int)
    requires Uniform(calls, max, window) && Nondecreasing(calls) && calls != []
    requires WithinWindow(calls[..|calls| - 1], from, max, window)
    ensures WithinWindow(calls, from, max, window)
  {
    var init, last := calls[..|calls| - 1], calls[|calls| - 1];
    AllowedOfLast(calls, from, from + window);
    StepBounds(OneAfter(init), AllowedBetween(init, OneAnswers(init), from, from + window), init[|init| - 1].now, last, from, 0);
  }

  lemma AllowedOfLast(calls: seq<Call>, from: int, to: int)
    requires calls != []
    ensures var init, last := calls[..|calls| - 1], calls[|calls| - 1];
            var (bucket, answer) := OneStep(OneAfter(init), last);
            && OneAfter(calls) == Some(bucket)
            && AllowedBetween(calls, OneAnswers(calls), from, to) ==
               AllowedBetween(init, OneAnswers(init), from, to) + if answer.allowed && from <= last.now < to then 1 else 0
  {
    var init := calls[..|calls| - 1];
    assert OneAnswers(calls)[..|init|] == OneAnswers(init);
  }

  lemma OpeningBounds(before: seq<Call>, open: Call, max: int, window: int)
    requires Uniform(before, max, window) && Nondecreasing(before) && open.max == max && open.window == window
    requires before != [] ==> before[|before| - 1].now <= open.now && OneAfter(before).value.resetAt <= open.now
    ensures AllowedBetween(before, OneAnswers(before), open.now, open.now + window) == 0
    ensures var (bucket, answer) := OneStep(OneAfter(before), open);
            var allowed := if answer.allowed && window > 0 then 1 else 0;
            && BucketBounds(bucket, allowed, open.now, max, window, open.now, 0)
            && bucket.resetAt - window >= open.now
  {
    if before != [] {
      RunBounds(before, max, window, open.now);
    }
    AllowedBefore(before, OneAnswers(before), open.now, window);
  }

  lemma {:induction false} AllowedBefore(calls: seq<Call>, answers: seq<Answer>, from: int, window: int)
    requires |calls| == |answers| && Nondecreasing(calls)
    requires window > 0 && calls != [] ==> calls[|calls| - 1].now < from
    ensures AllowedBetween(calls, answers, from, from + window) == 0
  {
    if calls != [] {
      AllowedBefore(calls[..|calls| - 1], answers[..|calls| - 1], from, window);
    }
  }
}
