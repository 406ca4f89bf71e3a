/** The shared read model of the public API: one value, refreshed by a single
    background load, with a backoff after failures and age limits on what is served.
    `PublicReadSnapshot` is the class of the program, its promise callbacks included;
    `World` adds what happens around it (loads in progress, readers waiting, the
    clock), and the lemmas speak about every run of such a world. */
module PublicSnapshots {
  import opened Options

  datatype Config = Config(freshMs: int, maxAgeMs: int, retryMs: int)

  /** What load number `load` delivered, and when it arrived. */
  datatype Value = Value(load: nat, at: int)

  /** The promise of a load; `settled` once its callback ran, but before `finally`. */
  datatype Pending = Pending(load: nat, settled: bool)

  datatype State = Live | Refreshing | Stale

  datatype Answer = Answer(load: nat, at: int, age: int, ageSeconds: int, state: State)

  datatype Reply = Served(answer: Answer) | Unavailable | Awaits(load: nat)

  /** `loads` numbers the promises made so far. */
  datatype Snapshot = Snapshot(
    value: Option<Value>, pending: Option<Pending>, retryAt: int, failed: bool, stopped: bool, loads: nat)

  const EMPTY := Snapshot(None, None, 0, false, false, 0)

  // ---- The specification ----

  /** A refresh joins the pending load, is refused during backoff, or starts a load. */
  function Refreshed(s: Snapshot, now: int): Snapshot {
    if s.pending.Some? || now < s.retryAt then s
    else s.(pending := Some(Pending(s.loads, false)), loads := s.loads + 1)
  }

  predicate Usable(value: Option<Value>, now: int, c: Config) {
    value.Some? && 0 <= now - value.value.at <= c.maxAgeMs
  }

  function StateAt(failed: bool, age: int, c: Config): State {
    if failed then Stale else if age >= c.freshMs then Refreshing else Live
  }

  function AnswerOf(s: Snapshot, now: int, c: Config): Answer
    requires s.value.Some?
  {
    var age := now - s.value.value.at;
    Answer(s.value.value.load, s.value.value.at, age, age / 1000, StateAt(s.failed, age, c))
  }

  predicate WantsRefresh(s: Snapshot, first: int, second: int, c: Config) {
    && (s.value.None? || first - s.value.value.at >= c.freshMs)
    && s.pending.None? && second >= s.retryAt
  }

  /** A read; the arguments are the clock readings it makes, in order. */
  function ReadBy(s: Snapshot, c: Config, first: int, second: int, third: int, last: int): (Snapshot, Reply) {
    var s' := if WantsRefresh(s, first, second, c) then Refreshed(s, third) else s;
    if Usable(s.value, first, c) then (s', Served(AnswerOf(s', first, c)))
    else if s'.pending.Some? then (s', Awaits(s'.pending.value.load))
    else if Usable(s.value, last, c) then (s', Served(AnswerOf(s', last, c)))
    else (s', Unavailable)
  }

  /** A waiting reader goes on once the promise it awaited is done. */
  function ResumedBy(s: Snapshot, c: Config, succeeded: bool, now: int): Reply {
    if succeeded && Usable(s.value, now, c) then Served(AnswerOf(s, now, c)) else Unavailable
  }

  function LoadedBy(s: Snapshot, load: nat, now: int): Snapshot {
    s.(value := Some(Value(load, now)), failed := false, retryAt := 0, pending := Settled(s.pending, load))
  }

  function FailedBy(s: Snapshot, c: Config, load: nat, now: int): Snapshot {
    s.(failed := true, retryAt := now + c.retryMs, pending := Settled(s.pending, load))
  }

  function Settled(pending: Option<Pending>, load: nat): Option<Pending> {
    if pending.Some? && pending.value.load == load then Some(Pending(load, true)) else pending
  }

  function Finished(s: Snapshot, load: nat): Snapshot {
    if s.pending.Some? && s.pending.value.load == load then s.(pending := None) else s
  }

  class PublicReadSnapshot {
    const config: Config
    var value: Option<Value>
    var pending: Option<Pending>
    var retryAt: int
    var failed: bool
    var stopped: bool
    var loads: nat

    ghost function Contents(): Snapshot
      reads this
    {
      Snapshot(value, pending, retryAt, failed, stopped, loads)
    }

    constructor (config: Config)
      ensures Contents() == EMPTY && this.config == config
    {
      this.config := config;
      value, pending := None, None;
      retryAt, failed, stopped, loads := 0, false, false, 0;
    }

    method Refresh(now: int) returns (promise: Option<nat>)
      modifies this
      ensures Contents() == Refreshed(old(Contents()), now)
      ensures promise == if old(pending).Some? || now >= old(retryAt) then Some(pending.value.load) else None
    {
      if pending.Some? {
        return Some(pending.value.load);
      }
      if now < retryAt {
        return None;
      }
      pending := Some(Pending(loads, false));
      loads := loads + 1;
      return Some(pending.value.load);
    }

    method Read(first: int, second: int, third: int, last: int) returns (reply: Reply)
      modifies this
      ensures (Contents(), reply) == ReadBy(old(Contents()), config, first, second, third, last)
    {
      var age := if value.Some? then Some(first - value.value.at) else None;
      if (value.None? || age.value >= config.freshMs) && pending.None? && second >= retryAt {
        var _ := Refresh(third);
      }
      if value.None? || age.value < 0 || age.value > config.maxAgeMs {
        if pending.Some? {
          return Awaits(pending.value.load);
        }
        age := if value.Some? then Some(last - value.value.at) else None;
        if value.None? || age.value < 0 || age.value > config.maxAgeMs {
          return Unavailable;
        }
      }
      reply := Served(Answer(value.value.load, value.value.at, age.value, age.value / 1000,
                             if failed then Stale else if age.value >= config.freshMs then Refreshing else Live));
    }

    method Resume(succeeded: bool, now: int) returns (reply: Reply)
      ensures reply == ResumedBy(Contents(), config, succeeded, now)
    {
      if !succeeded || value.None? || now - value.value.at < 0 || now - value.value.at > config.maxAgeMs {
        return Unavailable;
      }
      var age := now - value.value.at;
      reply := Served(Answer(value.value.load, value.value.at, age, age / 1000,
                             if failed then Stale else if age >= config.freshMs then Refreshing else Live));
    }

    /** The callback of a load whose data fits the memory budget. */
    method OnLoaded(load: nat, now: int)
      modifies this
      ensures Contents() == LoadedBy(old(Contents()), load, now)
    {
      value := Some(Value(load, now));
      failed := false;
      retryAt := 0;
      pending := Settled(pending, load);
    }

    /** The callback of a load that threw or delivered too much. */
    method OnFailed(load: nat, now: int)
      modifies this
      ensures Contents() == FailedBy(old(Contents()), config, load, now)
    {
      failed := true;
      retryAt := now + config.retryMs;
      pending := Settled(pending, load);
    }

    method OnFinally(load: nat)
      modifies this`pending
      ensures Contents() == Finished(old(Contents()), load)
    {
      if pending.Some? && pending.value.load == load {
        pending := None;
      }
    }

    /** The end of `close`, after any pending load. */
    method Clear()
      modifies this`value, this`stopped
      ensures Contents() == old(Contents()).(value := None, stopped := true)
    {
      stopped := true;
      value := None;
    }
  }

  // ---- Runs ----

  /** `outcomes` holds how each finished load ended and when; `inFlight` the loads
      running, `settling` those whose `finally` is still to run, `closed` those that had
      finished when the snapshot was last closed, `awaited` the promises readers wait
      for, `answers` what was served, with the time of serving and the outcome of the
      last finished load. */
  datatype World = World(
    snapshot: Snapshot, inFlight: set<nat>, settling: set<nat>, outcomes: map<nat, Outcome>, lastFinished: Option<nat>,
    closed: set<nat>, awaited: set<nat>, clock: int, answers: seq<Record>)

  datatype Outcome = Outcome(succeeded: bool, at: int)

  datatype Record = Record(answer: Answer, time: int, lastSucceeded: bool)

  const INITIAL := World(EMPTY, {}, {}, map[], None, {}, {}, 0, [])

  datatype Event =
    | Refresh(now: int)
    | Read(first: int, second: int, third: int, last: int)
    | Resume(load: nat, now: int)
    | Finish(load: nat, ok: bool, now: int)   // the load ends; `ok` when it delivered fitting data
    | Finally(load: nat)
    | Close(now: int)

  /** The loads a change of the snapshot started. */
  function NewLoads(before: Snapshot, after: Snapshot): set<nat> {
    if after.loads > before.loads then {before.loads} else {}
  }

  function LastSucceeded(w: World): bool {
    w.lastFinished.Some? && w.lastFinished.value in w.outcomes && w.outcomes[w.lastFinished.value].succeeded
  }

  function Note(w: World, reply: Reply, time: int): World {
    match reply
    case Served(answer) => w.(answers := w.answers + [Record(answer, time, LastSucceeded(w))])
    case Unavailable => w
    case Awaits(load) => w.(awaited := w.awaited + {load})
  }

  function Step(w: World, c: Config, e: Event): World {
    match e
    case Refresh(now) =>
      var s := Refreshed(w.snapshot, now);
      w.(snapshot := s, inFlight := w.inFlight + NewLoads(w.snapshot, s), clock := now)
    case Read(first, second, third, last) =>
      var (s, reply) := ReadBy(w.snapshot, c, first, second, third, last);
      Note(w.(snapshot := s, inFlight := w.inFlight + NewLoads(w.snapshot, s), clock := last), reply,
           if Usable(w.snapshot.value, first, c) then first else last)
    case Resume(load, now) =>
      if load !in w.outcomes then w
      else Note(w.(clock := now), ResumedBy(w.snapshot, c, w.outcomes[load].succeeded, now), now)
    case Finish(load, ok, now) =>
      w.(snapshot := if ok then LoadedBy(w.snapshot, load, now) else FailedBy(w.snapshot, c, load, now),
         inFlight := w.inFlight - {load}, settling := w.settling + {load}, outcomes := w.outcomes[load := Outcome(ok, now)],
         lastFinished := Some(load), clock := now)
    case Finally(load) => w.(snapshot := Finished(w.snapshot, load), settling := w.settling - {load})
    case Close(now) => w.(snapshot := w.snapshot.(value := None, stopped := true), closed := w.outcomes.Keys, clock := now)
  }

  /** The clock does not run backwards, only running loads end, `finally` follows the
      load's own callback, and a reader resumes when the promise it awaits is done. */
  predicate Possible(w: World, e: Event) {
    match e
    case Refresh(now) => w.clock <= now
    case Read(first, second, third, last) => w.clock <= first <= second <= third <= last
    case Resume(load, now) => load in w.awaited && load in w.outcomes && w.clock <= now
    case Finish(load, _, now) => load in w.inFlight && w.clock <= now
    case Finally(load) => load in w.outcomes
    case Close(now) => w.clock <= now
  }

  function Run(c: Config, events: seq<Event>): World {
    if events == [] then INITIAL else Step(Run(c, events[..|events| - 1]), c, events[|events| - 1])
  }

  ghost predicate PossibleRun(c: Config, events: seq<Event>) {
    events != [] ==>
      PossibleRun(c, events[..|events| - 1]) && Possible(Run(c, events[..|events| - 1]), events[|events| - 1])
  }

  // ---- The invariant ----

  /** One load at a time, and it is the one the pending promise stands for. */
  ghost predicate SingleFlight(w: World) {
    && (forall n :: n in w.inFlight ==> w.snapshot.pending == Some(Pending(n, false)))
    && (w.snapshot.pending.Some? && !w.snapshot.pending.value.settled ==> w.snapshot.pending.value.load in w.inFlight)
    && (w.snapshot.pending.Some? && w.snapshot.pending.value.settled ==> w.snapshot.pending.value.load in w.outcomes)
    && (forall n :: n in w.settling <==> w.snapshot.pending == Some(Pending(n, true)))
    && (forall n :: n in w.inFlight || n in w.outcomes ==> n < w.snapshot.loads)
    && w.inFlight !! w.outcomes.Keys
  }

  /** `failed` and `retryAt` reflect the load that finished last. */
  predicate Reflects(w: World, c: Config) {
    match w.lastFinished
    case None => !w.snapshot.failed && w.snapshot.retryAt == 0 && w.snapshot.value.None?
    case Some(n) =>
      && n in w.outcomes && w.outcomes[n].at <= w.clock
      && w.snapshot.failed == !w.outcomes[n].succeeded
      && w.snapshot.retryAt == if w.outcomes[n].succeeded then 0 else w.outcomes[n].at + c.retryMs
  }

  predicate Delivered(w: World, load: nat, at: int) { load in w.outcomes && w.outcomes[load] == Outcome(true, at) && at <= w.clock }

  /** The value is the latest delivery, and loads still running are later than it. */
  ghost predicate ValueIsLatest(w: World) {
    && (w.snapshot.value.Some? ==>
          var v := w.snapshot.value.value;
          && v.load !in w.closed && Delivered(w, v.load, v.at)
          && forall n :: n in w.outcomes && w.outcomes[n].succeeded ==> n <= v.load)
    && (w.snapshot.value.None? ==> forall n :: n in w.outcomes && w.outcomes[n].succeeded ==> n in w.closed)
    && (forall n, m :: n in w.outcomes && m in w.inFlight ==> n < m)
    && w.closed <= w.outcomes.Keys && 0 <= w.clock
    && (forall n :: n in w.outcomes ==> w.outcomes[n].at <= w.clock)
    && (forall n, m :: n in w.outcomes && m in w.outcomes && n <= m ==> w.outcomes[n].at <= w.outcomes[m].at)
  }

  ghost predicate GoodRecord(w: World, c: Config, r: Record) {
    && Delivered(w, r.answer.load, r.answer.at) && r.time <= w.clock
    && r.answer.age == r.time - r.answer.at && 0 <= r.answer.age <= c.maxAgeMs
    && r.answer.ageSeconds == r.answer.age / 1000
    && StateRight(c, r)
  }

  /** Live exactly when young after a successful last load. */
  predicate StateRight(c: Config, r: Record) {
    && (r.answer.state == Live <==> r.lastSucceeded && r.answer.age < c.freshMs)
    && (r.answer.state == Refreshing <==> r.lastSucceeded && r.answer.age >= c.freshMs)
    && (r.answer.state == Stale <==> !r.lastSucceeded)
  }

  ghost predicate AnswersGood(w: World, c: Config) {
    && (forall i :: 0 <= i < |w.answers| ==> GoodRecord(w, c, w.answers[i]))
    && (forall i, j :: 0 <= i < j < |w.answers| ==>
          w.answers[i].answer.load <= w.answers[j].answer.load && w.answers[i].time <= w.answers[j].time)
  }

  ghost predicate Inv(w: World, c: Config) {
    SingleFlight(w) && Reflects(w, c) && ValueIsLatest(w) && AnswersGood(w, c)
  }

  // ---- Every step keeps it ----

  lemma StartKeeps(w: World, c: Config, now: int)
    requires Inv(w, c) && w.clock <= now
    ensures Inv(Step(w, c, Refresh(now)), c)
  {
    AnswersStay(w, Step(w, c, Refresh(now)), c);
  }

  lemma AnswersStay(w: World, w': World, c: Config)
    requires AnswersGood(w, c) && w'.answers == w.answers && w.clock <= w'.clock
    requires forall n :: n in w.outcomes ==> n in w'.outcomes && w'.outcomes[n] == w.outcomes[n]
    ensures AnswersGood(w', c)
  {
    forall i | 0 <= i < |w'.answers| ensures GoodRecord(w', c, w'.answers[i]) {
      assert GoodRecord(w, c, w.answers[i]);
    }
  }

  /** Serving the current value adds a good record that is no older than the others. */
  lemma ServeKeeps(w: World, c: Config, time: int)
    requires Inv(w, c) && time <= w.clock && Usable(w.snapshot.value, time, c)
    requires forall i :: 0 <= i < |w.answers| ==> w.answers[i].time <= time
    ensures Inv(Note(w, Served(AnswerOf(w.snapshot, time, c)), time), c)
  {
    var r := Record(AnswerOf(w.snapshot, time, c), time, LastSucceeded(w));
    var w' := Note(w, Served(r.answer), time);
    assert GoodRecord(w, c, r);
    forall i | 0 <= i < |w'.answers| ensures GoodRecord(w', c, w'.answers[i]) {
      assert i < |w.answers| ==> GoodRecord(w, c, w.answers[i]);
    }
    forall i | 0 <= i < |w.answers| ensures w.answers[i].answer.load <= r.answer.load {
      assert GoodRecord(w, c, w.answers[i]);
    }
  }

  /** The part of a read that may start a load. */
  function ReadStart(w: World, c: Config, first: int, second: int, third: int, last: int): World {
    var s := ReadBy(w.snapshot, c, first, second, third, last).0;
    w.(snapshot := s, inFlight := w.inFlight + NewLoads(w.snapshot, s), clock := last)
  }

  lemma ReadStartKeeps(w: World, c: Config, first: int, second: int, third: int, last: int)
    requires Inv(w, c) && w.clock <= first <= second <= third <= last
    ensures Inv(ReadStart(w, c, first, second, third, last), c)
    ensures forall i :: 0 <= i < |w.answers| ==> w.answers[i].time <= first
  {
    AnswersStay(w, ReadStart(w, c, first, second, third, last), c);
    forall i | 0 <= i < |w.answers| ensures w.answers[i].time <= first {
      assert GoodRecord(w, c, w.answers[i]);
    }
  }

  lemma ReadKeeps(w: World, c: Config, first: int, second: int, third: int, last: int)
    requires Inv(w, c) && w.clock <= first <= second <= third <= last
    ensures Inv(Step(w, c, Read(first, second, third, last)), c)
  {
    ReadStartKeeps(w, c, first, second, third, last);
    ReadServes(w, ReadStart(w, c, first, second, third, last), c, first, second, third, last);
  }

  lemma ReadServes(w: World, w1: World, c: Config, first: int, second: int, third: int, last: int)
    requires w1 == ReadStart(w, c, first, second, third, last) && Inv(w1, c) && first <= last
    requires forall i :: 0 <= i < |w1.answers| ==> w1.answers[i].time <= first
    ensures Inv(Step(w, c, Read(first, second, third, last)), c)
  {
    if Usable(w.snapshot.value, first, c) {
      ServeKeeps(w1, c, first);
    } else if w1.snapshot.pending.None? && Usable(w.snapshot.value, last, c) {
      ServeKeeps(w1, c, last);
    } else {
      AnswersStay(w1, Step(w, c, Read(first, second, third, last)), c);
    }
  }

  lemma ResumeKeeps(w: World, c: Config, load: nat, now: int)
    requires Inv(w, c) && w.clock <= now && load in w.outcomes
    ensures Inv(Step(w, c, Resume(load, now)), c)
  {
    var w1 := w.(clock := now);
    AnswersStay(w, w1, c);
    forall i | 0 <= i < |w.answers| ensures w.answers[i].time <= now {
      assert GoodRecord(w, c, w.answers[i]);
    }
    if w.outcomes[load].succeeded && Usable(w.snapshot.value, now, c) {
      ServeKeeps(w1, c, now);
    }
  }

  lemma FinishKeeps(w: World, c: Config, load: nat, ok: bool, now: int)
    requires Inv(w, c) && w.clock <= now && load in w.inFlight
    ensures Inv(Step(w, c, Finish(load, ok, now)), c)
  {
    AnswersStay(w, Step(w, c, Finish(load, ok, now)), c);
  }

  lemma StepKeeps(w: World, c: Config, e: Event)
    requires Inv(w, c) && Possible(w, e)
    ensures Inv(Step(w, c, e), c)
  {
    match e
    case Refresh(now) => StartKeeps(w, c, now);
    case Read(first, second, third, last) => ReadKeeps(w, c, first, second, third, last);
    case Resume(load, now) => ResumeKeeps(w, c, load, now);
    case Finish(load, ok, now) => FinishKeeps(w, c, load, ok, now);
    case Finally(load) => AnswersStay(w, Step(w, c, e), c);
    case Close(now) => AnswersStay(w, Step(w, c, e), c);
  }

  lemma {:induction false} RunKeeps(c: Config, events: seq<Event>)
    requires PossibleRun(c, events)
    ensures Inv(Run(c, events), c)
  {
    if events != [] {
      RunKeeps(c, events[..|events| - 1]);
      StepKeeps(Run(c, events[..|events| - 1]), c, events[|events| - 1]);
    }
  }

  // ---- The results ----

  /** At most one load runs at any time, however many readers and timers ask. */
  lemma AtMostOneLoad(c: Config, events: seq<Event>)
    requires PossibleRun(c, events)
    ensures |Run(c, events).inFlight| <= 1
  {
    RunKeeps(c, events);
    var w := Run(c, events);
    if w.inFlight != {} {
      var n :| n in w.inFlight;
      assert w.inFlight == {n};
    }
  }

  /** No load starts before the backoff of the last finished one has passed. */
  lemma StartsAfterBackoff(c: Config, events: seq<Event>, e: Event)
    requires PossibleRun(c, events + [e])
    ensures var w := Run(c, events);
            w.lastFinished.Some? && Step(w, c, e).snapshot.loads > w.snapshot.loads ==>
              && (e.Refresh? || e.Read?) && w.lastFinished.value in w.outcomes
              && var last, now := w.outcomes[w.lastFinished.value], if e.Refresh? then e.now else e.third;
                 !last.succeeded ==> now >= last.at + c.retryMs
  {
    assert (events + [e])[..|events|] == events;
    RunKeeps(c, events);
  }

  /** Whatever is served comes from one load that succeeded, is between 0 and `maxAgeMs`
      old, is called live exactly when younger than `freshMs` after a successful last
      load, refreshing when older and stale after a failed one, and successive answers
      never go back to an earlier load. */
  lemma ServedAnswers(c: Config, events: seq<Event>, i: nat, j: nat)
    requires PossibleRun(c, events) && i <= j < |Run(c, events).answers|
    ensures var w := Run(c, events);
            var r, r' := w.answers[i], w.answers[j];
            && r.answer.load in w.outcomes && w.outcomes[r.answer.load] == Outcome(true, r.answer.at)
            && r.answer.age == r.time - r.answer.at && 0 <= r.answer.age <= c.maxAgeMs
            && r.answer.ageSeconds == r.answer.age / 1000 && StateRight(c, r)
            && r.answer.load <= r'.answer.load && r.time <= r'.time
  {
    RunKeeps(c, events);
    assert GoodRecord(Run(c, events), c, Run(c, events).answers[i]);
  }

  // ---- When a reader is answered, waits or is refused ----

  /** A load delivered, since the snapshot was last closed, data now at most `limit` old. */
  ghost predicate HasData(w: World, now: int, limit: int) {
    exists n :: n in w.outcomes && n !in w.closed && w.outcomes[n].succeeded && 0 <= now - w.outcomes[n].at <= limit
  }

  /** The promises not yet over: of running loads, and of finished ones before `finally`. */
  function Outstanding(w: World): set<nat> { w.inFlight + w.settling }

  /** The last load did not fail, or its backoff is over. */
  predicate BackoffOver(w: World, c: Config, now: int) {
    w.lastFinished.Some? && w.lastFinished.value in w.outcomes && !w.outcomes[w.lastFinished.value].succeeded ==>
      now >= w.outcomes[w.lastFinished.value].at + c.retryMs
  }

  lemma UsableIsData(w: World, c: Config, now: int, limit: int)
    requires Inv(w, c) && w.clock <= now
    ensures w.snapshot.value.Some? && 0 <= now - w.snapshot.value.value.at <= limit <==> HasData(w, now, limit)
  {
    if w.snapshot.value.Some? {
      var v := w.snapshot.value.value;
      assert v.load in w.outcomes && w.outcomes[v.load] == Outcome(true, v.at);
    }
  }

  lemma PendingIsOutstanding(w: World, c: Config)
    requires Inv(w, c)
    ensures w.snapshot.pending.None? <==> Outstanding(w) == {}
    ensures w.snapshot.pending.Some? ==> Outstanding(w) == {w.snapshot.pending.value.load}
  {
    if w.snapshot.pending.Some? {
      assert w.snapshot.pending.value.load in Outstanding(w);
    }
  }

  /** The load of number `loads` is started, and no other, or none is. */
  predicate StartsIf(w: World, w': World, starts: bool) {
    && w'.inFlight == w.inFlight + (if starts then {w.snapshot.loads} else {})
    && w.snapshot.loads !in w.inFlight && w'.settling == w.settling && w'.outcomes == w.outcomes
    && w'.snapshot.loads == w.snapshot.loads + if starts then 1 else 0
  }

  /** A read starts a load exactly when there is no data younger than `freshMs`, no promise
      is outstanding and the backoff is over; it answers at once exactly when there is
      data at most `maxAgeMs` old; otherwise it waits for the outstanding promise, its own
      included, and is refused exactly when there is none. */
  ghost predicate ReadsAs(w: World, w': World, c: Config, first: int, second: int) {
    var starts := !HasData(w, first, c.freshMs - 1) && Outstanding(w) == {} && BackoffOver(w, c, second);
    var answered := HasData(w, first, c.maxAgeMs);
    && StartsIf(w, w', starts)
    && (if answered then |w'.answers| == |w.answers| + 1 && w'.answers[..|w.answers|] == w.answers && w'.answers[|w.answers|].time == first
        else w'.answers == w.answers)
    && w'.awaited == w.awaited + (if answered then {} else Outstanding(w'))
    && (Outstanding(w') == {} <==> Outstanding(w) == {} && !starts)
  }

  lemma ReadIsAnswered(c: Config, events: seq<Event>, first: int, second: int, third: int, last: int)
    requires PossibleRun(c, events + [Read(first, second, third, last)])
    ensures ReadsAs(Run(c, events), Run(c, events + [Read(first, second, third, last)]), c, first, second)
  {
    var e := Read(first, second, third, last);
    assert (events + [e])[..|events|] == events;
    RunKeeps(c, events);
    ReadReads(Run(c, events), c, first, second, third, last);
  }

  /** A reader whose awaited promise is over is answered exactly when that load delivered
      and there still is data at most `maxAgeMs` old. */
  lemma ResumeIsAnswered(c: Config, events: seq<Event>, load: nat, now: int)
    requires PossibleRun(c, events + [Resume(load, now)])
    ensures var w, w' := Run(c, events), Run(c, events + [Resume(load, now)]);
            && load in w.outcomes
            && (if w.outcomes[load].succeeded && HasData(w, now, c.maxAgeMs)
                then |w'.answers| == |w.answers| + 1 && w'.answers[..|w.answers|] == w.answers && w'.answers[|w.answers|].time == now
                else w'.answers == w.answers)
  {
    assert (events + [Resume(load, now)])[..|events|] == events;
    RunKeeps(c, events);
    UsableIsData(Run(c, events), c, now, c.maxAgeMs);
  }

  /** A refresh starts a load exactly when no promise is outstanding and the backoff is over. */
  lemma RefreshStarts(c: Config, events: seq<Event>, now: int)
    requires PossibleRun(c, events + [Refresh(now)])
    ensures var w, w' := Run(c, events), Run(c, events + [Refresh(now)]);
            StartsIf(w, w', Outstanding(w) == {} && BackoffOver(w, c, now))
  {
    assert (events + [Refresh(now)])[..|events|] == events;
    RunKeeps(c, events);
    PendingIsOutstanding(Run(c, events), c);
  }

  lemma ReadReads(w: World, c: Config, first: int, second: int, third: int, last: int)
    requires Inv(w, c) && w.clock <= first <= second <= third <= last
    ensures ReadsAs(w, Step(w, c, Read(first, second, third, last)), c, first, second)
  {
    UsableIsData(w, c, first, c.maxAgeMs);
    UsableIsData(w, c, first, c.freshMs - 1);
    PendingIsOutstanding(w, c);
  }
}
