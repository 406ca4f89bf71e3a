/** The policy that decides which completed requests are logged, as a client of the
    window limiter. */
module CompletionLogging {
  import opened WindowLimiting

  /** What the path and status make of a request. */
  datatype Kind = Audited | Public(failed: bool) | ProbeSuccess | Other

  datatype Request = Request(kind: Kind, now: int)

  const BUDGET := 60
  const WINDOW := 60_000
  const SAMPLING := 100

  predicate EndsWith(s: string, suffix: string) {
    && |suffix| <= |s|
    && s[|s| - |suffix|..] == suffix
  }

  /** A report of one trading-probe job: one nonempty segment between the two ends. */
  predicate IsProbeReport(path: string) {
    var prefix, suffix := "/v1/trading-probe/jobs/", "/report";
    && prefix <= path && EndsWith(path, suffix)
    && |prefix| + |suffix| < |path|
    && '/' !in path[|prefix|..|path| - |suffix|]
  }

  predicate IsPublicMeasurement(path: string) {
    path == "/v1/public/benchmarks/gate-matrix" || path == "/v1/public/trading/latency" || path == "/v1/public/trading/pairs"
  }

  predicate IsProbePoll(path: string) {
    || path == "/v1/gate/jobs/claim" || path == "/v1/trading-probe/jobs/claim"
    || path == "/v1/trading-probe/heartbeat" || IsProbeReport(path)
  }

  function Classify(path: string, status: int): Kind {
    if "/v1/public/auth/" <= path then Audited
    else if IsPublicMeasurement(path) then Public(status >= 400)
    else if status < 400 && IsProbePoll(path) then ProbeSuccess
    else Other
  }

  /** The limiter key of a class of public requests. */
  function KeyOf(failed: bool): string { if failed then "error" else "success" }

  datatype State = State(table: Table, probeSuccesses: nat)

  function Decide(s: State, r: Request): (State, bool) {
    match r.kind
    case Audited => (s, false)
    case Public(failed) =>
      var (t, outcome) := Step(s.table, 2, Call(KeyOf(failed), BUDGET, WINDOW, r.now));
      (s.(table := t), outcome.answer.allowed)
    case ProbeSuccess =>
      var n := (s.probeSuccesses + 1) % SAMPLING;
      (s.(probeSuccesses := n), n == 1)
    case Other => (s, true)
  }

  class CompletionLogPolicy {
    const publicBudget: WindowLimiter
    var probeSuccesses: nat

    ghost function Contents(): State
      reads this, publicBudget
    {
      State(publicBudget.Contents(), probeSuccesses)
    }

    constructor ()
      ensures Contents() == State(EMPTY, 0) && publicBudget.capacity == 2 && fresh(publicBudget)
    {
      publicBudget := new WindowLimiter(2);
      probeSuccesses := 0;
    }

    method Allow(path: string, status: int, now: int) returns (allowed: bool)
      requires publicBudget.capacity == 2
      modifies this, publicBudget
      ensures (Contents(), allowed) == Decide(old(Contents()), Request(Classify(path, status), now))
    {
      if "/v1/public/auth/" <= path {
        return false;
      }
      if IsPublicMeasurement(path) {
        var outcome := publicBudget.Consume(if status >= 400 then "error" else "success", BUDGET, WINDOW, now);
        return outcome.answer.allowed;
      }
      if status < 400 && IsProbePoll(path) {
        probeSuccesses := (probeSuccesses + 1) % SAMPLING;
        return probeSuccesses == 1;
      }
      return true;
    }
  }

  // ---- Runs ----

  function After(requests: seq<Request>): State {
    if requests == [] then State(EMPTY, 0)
    else Decide(After(requests[..|requests| - 1]), requests[|requests| - 1]).0
  }

  function Logged(requests: seq<Request>): (r: seq<bool>)
    ensures |r| == |requests|
  {
    if requests == [] then []
    else
      var n := |requests| - 1;
      Logged(requests[..n]) + [Decide(After(requests[..n]), requests[n]).1]
  }

  /** The limiter calls a run of requests makes. */
  function BudgetCalls(requests: seq<Request>): seq<Call> {
    if requests == [] then []
    else
      var init, last := requests[..|requests| - 1], requests[|requests| - 1];
      if last.kind.Public? then BudgetCalls(init) + [Call(KeyOf(last.kind.failed), BUDGET, WINDOW, last.now)]
      else BudgetCalls(init)
  }

  lemma {:induction false} TableOfRun(requests: seq<Request>)
    ensures After(requests).table == WindowLimiting.After(2, BudgetCalls(requests))
    ensures forall c :: c in BudgetCalls(requests) ==> c.key == KeyOf(true) || c.key == KeyOf(false)
  {
    if requests != [] {
      var init, last := requests[..|requests| - 1], requests[|requests| - 1];
      TableOfRun(init);
      if last.kind.Public? {
        var call := Call(KeyOf(last.kind.failed), BUDGET, WINDOW, last.now);
        assert (BudgetCalls(init) + [call])[..|BudgetCalls(init)|] == BudgetCalls(init);
      }
    }
  }

  /** The two classes fit the two buckets, so a public request is never refused for
      want of a bucket: one class cannot silence the other. */
  lemma NeverFull(requests: seq<Request>, failed: bool, now: int)
    ensures !Step(After(requests).table, 2, Call(KeyOf(failed), BUDGET, WINDOW, now)).1.full
  {
    TableOfRun(requests);
    var calls, call := BudgetCalls(requests), Call(KeyOf(failed), BUDGET, WINDOW, now);
    var both := {KeyOf(true), KeyOf(false)};
    KeysWithin(calls + [call], both);
    SubsetSize(Keys(calls + [call]), both);
    NoRefusalWithinCapacity(2, calls, call);
  }

  /** The decisions on the public requests of one class, with the calls they made. */
  function PublicDecisions(requests: seq<Request>, failed: bool): (r: (seq<Call>, seq<bool>))
    ensures |r.0| == |r.1|
  {
    if requests == [] then ([], [])
    else
      var init, last := requests[..|requests| - 1], requests[|requests| - 1];
      var (cs, decisions) := PublicDecisions(init, failed);
      if last.kind == Public(failed)
      then (cs + [Call(KeyOf(failed), BUDGET, WINDOW, last.now)], decisions + [Decide(After(init), last).1])
      else (cs, decisions)
  }

  function Flags(answers: seq<Answer>): (r: seq<bool>)
    ensures |r| == |answers| && forall i :: 0 <= i < |r| ==> r[i] == answers[i].allowed
  {
    seq(|answers|, i requires 0 <= i < |answers| => answers[i].allowed)
  }

  lemma KeysDiffer()
    ensures KeyOf(true) != KeyOf(false)
  {
    assert KeyOf(true)[0] != KeyOf(false)[0];
  }

  lemma {:induction false} DecisionsAreServed(requests: seq<Request>, failed: bool)
    ensures var (cs, answers) := Served(2, BudgetCalls(requests), KeyOf(failed));
            PublicDecisions(requests, failed) == (cs, Flags(answers))
  {
    if requests != [] {
      var init, last := requests[..|requests| - 1], requests[|requests| - 1];
      DecisionsAreServed(init, failed);
      if last.kind.Public? {
        TableOfRun(init);
        KeysDiffer();
        NeverFull(init, last.kind.failed, last.now);
        ServedNext(init, last, failed);
      }
    }
  }

  lemma ServedNext(requests: seq<Request>, r: Request, failed: bool)
    requires r.kind.Public? && KeyOf(true) != KeyOf(false)
    requires var call := Call(KeyOf(r.kind.failed), BUDGET, WINDOW, r.now);
             && After(requests).table == WindowLimiting.After(2, BudgetCalls(requests))
             && !Step(After(requests).table, 2, call).1.full
    ensures var call := Call(KeyOf(r.kind.failed), BUDGET, WINDOW, r.now);
            var (cs, answers) := Served(2, BudgetCalls(requests), KeyOf(failed));
            var (cs', answers') := Served(2, BudgetCalls(requests) + [call], KeyOf(failed));
            (cs', Flags(answers')) ==
            if r.kind.failed == failed then (cs + [call], Flags(answers) + [Decide(After(requests), r).1]) else (cs, Flags(answers))
  {
    var call := Call(KeyOf(r.kind.failed), BUDGET, WINDOW, r.now);
    var calls := BudgetCalls(requests);
    var outcome := Next(2, calls, call);
    assert Decide(After(requests), r).1 == outcome.answer.allowed;
    ServedWith(calls, call, KeyOf(failed), outcome);
  }

  lemma ServedWith(calls: seq<Call>, call: Call, key: string, outcome: Outcome)
    requires outcome == Next(2, calls, call) && !outcome.full
    ensures var (cs, answers) := Served(2, calls, key);
            var (cs', answers') := Served(2, calls + [call], key);
            if call.key == key then cs' == cs + [call] && Flags(answers') == Flags(answers) + [outcome.answer.allowed]
            else cs' == cs && answers' == answers
  {
    ServedAppend(2, calls, call, key);
    FlagsAppend(Served(2, calls, key).1, outcome.answer);
  }

  lemma FlagsAppend(answers: seq<Answer>, answer: Answer)
    ensures Flags(answers + [answer]) == Flags(answers) + [answer.allowed]
  {
  }

  lemma {:induction false} BudgetIsUniform(requests: seq<Request>, key: string)
    ensures UniformFor(BudgetCalls(requests), key, BUDGET, WINDOW)
  {
    if requests != [] {
      BudgetIsUniform(requests[..|requests| - 1], key);
    }
  }

  lemma ClassNeverLapses(requests: seq<Request>, failed: bool)
    ensures NoLapse(2, BudgetCalls(requests), KeyOf(failed))
  {
    TableOfRun(requests);
    var calls, both := BudgetCalls(requests), {KeyOf(true), KeyOf(false)};
    KeysWithin(calls, both);
    SubsetSize(Keys(calls), both);
    FewKeysNoLapse(2, calls, KeyOf(failed));
  }

  /** Each class has a counter of its own: the decisions on its requests are those of a
      private counter of 60 a minute, whatever else the run contains and however the
      clock jumps. */
  lemma OwnCounter(requests: seq<Request>, failed: bool)
    ensures var (cs, decisions) := PublicDecisions(requests, failed);
            decisions == Flags(OneAnswers(cs))
  {
    DecisionsAreServed(requests, failed);
    ClassNeverLapses(requests, failed);
    SharedEqualsPrivate(2, BudgetCalls(requests), KeyOf(failed));
  }

  /** When the clock does not run backwards from one public request of a class to the next,
      at most 120 of them are logged in any 60 seconds, whatever it does in between. */
  lemma OwnBudget(requests: seq<Request>, failed: bool, from: int)
    requires Nondecreasing(PublicDecisions(requests, failed).0)
    ensures var (cs, decisions) := PublicDecisions(requests, failed);
            && decisions == Flags(OneAnswers(cs))
            && AllowedBetween(cs, OneAnswers(cs), from, from + 60_000) <= 120
  {
    var calls, key := BudgetCalls(requests), KeyOf(failed);
    DecisionsAreServed(requests, failed);
    ClassNeverLapses(requests, failed);
    BudgetIsUniform(requests, key);
    SharedEqualsPrivate(2, calls, key);
    TwiceMaxPerInterval(2, calls, key, BUDGET, WINDOW, from);
  }

  /** Which paths these are, by example. */
  lemma Paths()
    ensures IsPublicMeasurement("/v1/public/benchmarks/gate-matrix")
    ensures IsPublicMeasurement("/v1/public/trading/latency") && IsPublicMeasurement("/v1/public/trading/pairs")
    ensures IsProbePoll("/v1/gate/jobs/claim") && IsProbePoll("/v1/trading-probe/jobs/claim") && IsProbePoll("/v1/trading-probe/heartbeat")
    ensures IsProbeReport("/v1/trading-probe/jobs/" + "42" + "/report") && !IsProbeReport("/v1/trading-probe/jobs/" + "4/2" + "/report")
    ensures !IsProbeReport("/v1/trading-probe/jobs/" + "" + "/report")
  {
    var prefix, suffix := "/v1/trading-probe/jobs/", "/report";
    assert (prefix + "4/2" + suffix)[|prefix|..|prefix| + 3] == "4/2";
    assert "4/2"[1] == '/';
    assert (prefix + "42" + suffix)[|prefix|..|prefix| + 2] == "42";
    assert (prefix + "42" + suffix)[|prefix| + 2..] == suffix;
  }

  /** After any requests: those to the sign-in paths are never logged, and those that are
      neither public measurements nor successful probe polls always are, at no cost to a
      budget. */
  lemma PlainRequests(requests: seq<Request>, path: string, status: int, now: int)
    ensures var s := After(requests);
            var (s', logged) := Decide(s, Request(Classify(path, status), now));
            && ("/v1/public/auth/" <= path ==> !logged && s' == s)
            && (!("/v1/public/auth/" <= path) && !IsPublicMeasurement(path) && (status >= 400 || !IsProbePoll(path)) ==> logged && s' == s)
            && (!("/v1/public/auth/" <= path) && IsPublicMeasurement(path) ==> s'.probeSuccesses == s.probeSuccesses)
            && (!("/v1/public/auth/" <= path) && !IsPublicMeasurement(path) && status < 400 && IsProbePoll(path) ==>
                  s'.table == s.table && (logged <==> s.probeSuccesses == 0))
  {
    OneInAHundred(requests);
  }

  /** The number of successful probe polls in a run, and of those logged. */
  function ProbeCounts(requests: seq<Request>): (nat, nat) {
    if requests == [] then (0, 0)
    else
      var n := |requests| - 1;
      var (seen, logged) := ProbeCounts(requests[..n]);
      if requests[n].kind == ProbeSuccess
      then (seen + 1, logged + if Logged(requests)[n] then 1 else 0)
      else (seen, logged)
  }

  /** One poll in a hundred is logged, the first of each hundred, whatever comes between. */
  lemma {:induction false} OneInAHundred(requests: seq<Request>)
    ensures var (seen, logged) := ProbeCounts(requests);
            logged == (seen + 99) / 100 && After(requests).probeSuccesses == seen % 100
  {
    if requests != [] {
      var init, last := requests[..|requests| - 1], requests[|requests| - 1];
      OneInAHundred(init);
      assert Logged(requests)[|init|] == Decide(After(init), last).1;
      NextOfHundred(ProbeCounts(init).0);
    }
  }

  lemma NextOfHundred(seen: nat)
    ensures (seen + 1) % SAMPLING == (seen % SAMPLING + 1) % SAMPLING
    ensures (seen + 1 + SAMPLING - 1) / SAMPLING == (seen + SAMPLING - 1) / SAMPLING + if (seen + 1) % SAMPLING == 1 then 1 else 0
  {
  }
}
