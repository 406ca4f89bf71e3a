/** What one run of the withdrawal loop leaves of the table, said of the rows it lists, the
    reports it reads and the replies it gets.  What lands meanwhile plays no part. */
module WithdrawalAnswers {
  import opened Options
  import opened WithdrawalPayouts

  // ---- Replies, and the chain in between ----

  /** The events of a run that are not the chain's. */
  function Replies(events: seq<Event>): seq<Event> {
    if events == [] then []
    else if events[0].Land? then Replies(events[1..])
    else [events[0]] + Replies(events[1..])
  }

  /** Alike but for what has landed and what time it is. */
  predicate Alike(w: World, w': World) {
    w.rows == w'.rows && w.recordedAt == w'.recordedAt && w.phase == w'.phase && w.chain.broadcast == w'.chain.broadcast
  }

  lemma AlikeEffect(w: World, w': World, now: int, now': int)
    requires Alike(w, w') && (now == now' || w.phase.Sending?)
    ensures Alike(Effect(w, now), Effect(w', now'))
  {
  }

  lemma AlikeStep(w: World, w': World, e: Event)
    requires Alike(w, w') && !e.Land?
    ensures Alike(Step(w, e), Step(w', e))
  {
    match e
    case Database(now, _) => AlikeEffect(w, w', now, now);
    case Crash(now, _) => AlikeEffect(w, w', now, now);
    case Sent(_) => if w.phase.Sending? { AlikeEffect(w, w', w.clock, w'.clock); }
    case _ =>
  }

  lemma {:induction false} AlikeRun(w: World, w': World, events: seq<Event>)
    requires Alike(w, w')
    ensures Alike(Run(w, events), Run(w', Replies(events)))
    decreases |events|
  {
    if events != [] {
      if events[0].Land? {
        AlikeRun(Step(w, events[0]), w', events[1..]);
      } else {
        AlikeStep(w, w', events[0]);
        AlikeRun(Step(w, events[0]), Step(w', events[0]), events[1..]);
        RunFirst(w', events[0], Replies(events[1..]));
      }
    }
  }

  lemma RunFirst(w: World, e: Event, rest: seq<Event>)
    ensures Run(w, [e] + rest) == Run(Step(w, e), rest)
  {
    assert ([e] + rest)[1..] == rest;
  }

  lemma RunOne(w: World, e: Event)
    ensures Run(w, [e]) == Step(w, e)
  {
    RunFirst(w, e, []);
    assert [e] + [] == [e];
  }

  lemma RunTwo(w: World, a: Event, b: Event)
    ensures Run(w, [a, b]) == Step(Step(w, a), b)
  {
    RunFirst(w, a, [b]);
    RunOne(Step(w, a), b);
    assert [a] + [b] == [a, b];
  }

  lemma RunThree(w: World, a: Event, b: Event, c: Event)
    ensures Run(w, [a, b, c]) == Step(Step(Step(w, a), b), c)
  {
    RunFirst(w, a, [b, c]);
    RunTwo(Step(w, a), b, c);
    assert [a] + [b, c] == [a, b, c];
  }

  // ---- Settling the listed submissions ----

  /** When an entry is looked at, by the database's clock and the worker's, and settled. */
  datatype Look = Look(now: int, local: int, settledAt: int)

  predicate Pays(report: Report) { report.Seen? && report.finalized && !report.err }

  /** An error, or unseen for more than ten minutes by the worker's clock. */
  predicate Releases(row: Row, report: Report, local: int) {
    if report.Seen? then report.err else local - row.submittedAt > 10 * 60 * 1000
  }

  function SettledRow(row: Row, report: Report, look: Look): Row {
    if Pays(report) then row.(status := Confirmed, updatedAt := look.settledAt)
    else if Releases(row, report, look.local) then row.(status := Failed, updatedAt := look.settledAt)
    else row
  }

  predicate Settles(row: Row, report: Report, look: Look) { Pays(report) || Releases(row, report, look.local) }

  /** What the loop gets while it settles the first entries without an error. */
  function Settling(rows: map<Id, Row>, ids: seq<Id>, reports: seq<Report>, looks: seq<Look>): seq<Event>
    requires |looks| <= |ids| && |looks| <= |reports| && forall i :: 0 <= i < |ids| ==> ids[i] in rows
    decreases |looks|
  {
    if looks == [] then []
    else
      var look := looks[0];
      [Proceed(look.now, look.local)]
      + (if Settles(rows[ids[0]], reports[0], look) then [Database(look.settledAt, Done)] else [])
      + Settling(rows, ids[1..], reports[1..], looks[1..])
  }

  /** The first entries are settled by their reports; the other rows are as they were. */
  ghost predicate SettledSoFar(was: map<Id, Row>, now: map<Id, Row>, ids: seq<Id>, reports: seq<Report>, looks: seq<Look>)
    requires |looks| <= |ids| && |looks| <= |reports| && forall i :: 0 <= i < |ids| ==> ids[i] in was
  {
    && now.Keys == was.Keys
    && (forall i :: 0 <= i < |looks| ==> now[ids[i]] == SettledRow(was[ids[i]], reports[i], looks[i]))
    && (forall id :: id in was && id !in ids[..|looks|] ==> now[id] == was[id])
  }

  /** The loop stands before the entries `ids`. */
  predicate Before(w: World, ids: seq<Id>, reports: seq<Report>, readAt: int) {
    CanList(w.rows, ids) && |ids| == |reports| && w.phase == Phase.Settling(Jobs(w.rows, ids), reports, readAt)
  }

  /** One entry. */
  function One(row: Row, report: Report, look: Look): seq<Event> {
    [Proceed(look.now, look.local)] + if Settles(row, report, look) then [Database(look.settledAt, Done)] else []
  }

  lemma OneSettles(w: World, ids: seq<Id>, reports: seq<Report>, readAt: int, look: Look)
    requires Before(w, ids, reports, readAt) && ids != []
    ensures var w' := Run(w, One(w.rows[ids[0]], reports[0], look));
            && Before(w', ids[1..], reports[1..], readAt)
            && w'.rows == w.rows[ids[0] := SettledRow(w.rows[ids[0]], reports[0], look)]
            && w'.recordedAt == w.recordedAt && w'.chain == w.chain
  {
    var row, p, d := w.rows[ids[0]], Proceed(look.now, look.local), Database(look.settledAt, Done);
    RunOne(w, p);
    RunTwo(w, p, d);
    assert [p] + [d] == [p, d] && [p] + [] == [p];
    assert w.rows[ids[0] := row] == w.rows;
    JobsOfRest(w.rows, ids, SettledRow(row, reports[0], look));
  }

  lemma JobsOfRest(rows: map<Id, Row>, ids: seq<Id>, row: Row)
    requires CanList(rows, ids) && ids != []
    ensures CanList(rows[ids[0] := row], ids[1..])
    ensures Jobs(rows[ids[0] := row], ids[1..]) == Jobs(rows, ids)[1..]
  {
  }

  /** From `w` to `w'` the first entries have been settled, and nothing else has happened. */
  ghost predicate Advanced(w: World, w': World, ids: seq<Id>, reports: seq<Report>, readAt: int, looks: seq<Look>)
    requires |looks| <= |ids| && |looks| <= |reports| && forall i :: 0 <= i < |ids| ==> ids[i] in w.rows
  {
    && Before(w', ids[|looks|..], reports[|looks|..], readAt)
    && SettledSoFar(w.rows, w'.rows, ids, reports, looks)
    && w'.recordedAt == w.recordedAt && w'.chain == w.chain
  }

  lemma {:induction false} FirstSettle(w: World, ids: seq<Id>, reports: seq<Report>, readAt: int, looks: seq<Look>)
    requires Before(w, ids, reports, readAt) && |looks| <= |ids|
    ensures Advanced(w, Run(w, Settling(w.rows, ids, reports, looks)), ids, reports, readAt, looks)
    decreases |looks|
  {
    if looks != [] {
      var w1 := Run(w, One(w.rows[ids[0]], reports[0], looks[0]));
      OneSettles(w, ids, reports, readAt, looks[0]);
      FirstSettle(w1, ids[1..], reports[1..], readAt, looks[1..]);
      RestRuns(w, ids, reports, readAt, looks);
      AdvancedFurther(w, w1, Run(w1, Settling(w1.rows, ids[1..], reports[1..], looks[1..])), ids, reports, readAt, looks);
    }
  }

  lemma {:induction false} AdvancedFurther(w: World, w1: World, w2: World, ids: seq<Id>, reports: seq<Report>, readAt: int, looks: seq<Look>)
    requires CanList(w.rows, ids) && 0 < |looks| <= |ids| == |reports|
    requires w1.rows == w.rows[ids[0] := SettledRow(w.rows[ids[0]], reports[0], looks[0])]
    requires w1.recordedAt == w.recordedAt && w1.chain == w.chain
    requires Advanced(w1, w2, ids[1..], reports[1..], readAt, looks[1..])
    ensures Advanced(w, w2, ids, reports, readAt, looks)
  {
    assert ids[1..][|looks| - 1..] == ids[|looks|..] && reports[1..][|looks| - 1..] == reports[|looks|..];
    OneMoreSettled(w.rows, w1.rows, w2.rows, ids, reports, looks);
  }

  lemma {:induction false} RestRuns(w: World, ids: seq<Id>, reports: seq<Report>, readAt: int, looks: seq<Look>)
    requires Before(w, ids, reports, readAt) && 0 < |looks| <= |ids|
    requires var w1 := Run(w, One(w.rows[ids[0]], reports[0], looks[0]));
             w1.rows == w.rows[ids[0] := SettledRow(w.rows[ids[0]], reports[0], looks[0])]
    ensures var w1 := Run(w, One(w.rows[ids[0]], reports[0], looks[0]));
            Run(w, Settling(w.rows, ids, reports, looks)) == Run(w1, Settling(w1.rows, ids[1..], reports[1..], looks[1..]))
  {
    var one := One(w.rows[ids[0]], reports[0], looks[0]);
    SameScript(w.rows, Run(w, one).rows, ids[1..], reports[1..], looks[1..]);
    RunConcat(w, one, Settling(w.rows, ids[1..], reports[1..], looks[1..]));
  }

  lemma {:induction false} SameScript(rows: map<Id, Row>, rows': map<Id, Row>, ids: seq<Id>, reports: seq<Report>, looks: seq<Look>)
    requires |looks| <= |ids| && |looks| <= |reports|
    requires forall i :: 0 <= i < |ids| ==> ids[i] in rows && ids[i] in rows' && rows[ids[i]] == rows'[ids[i]]
    ensures Settling(rows, ids, reports, looks) == Settling(rows', ids, reports, looks)
    decreases |looks|
  {
    if looks != [] {
      SameScript(rows, rows', ids[1..], reports[1..], looks[1..]);
    }
  }

  lemma OneMoreSettled(was: map<Id, Row>, mid: map<Id, Row>, now: map<Id, Row>, ids: seq<Id>, reports: seq<Report>, looks: seq<Look>)
    requires CanList(was, ids) && looks != [] && |looks| <= |ids| == |reports|
    requires mid == was[ids[0] := SettledRow(was[ids[0]], reports[0], looks[0])]
    requires SettledSoFar(mid, now, ids[1..], reports[1..], looks[1..])
    ensures SettledSoFar(was, now, ids, reports, looks)
  {
    var rest := ids[1..][..|looks| - 1];
    forall i | 0 <= i < |looks| ensures now[ids[i]] == SettledRow(was[ids[i]], reports[i], looks[i]) {
      if i == 0 {
        assert ids[0] !in rest;
      } else {
        assert ids[1..][i - 1] == ids[i];
      }
    }
    forall id | id in was && id !in ids[..|looks|] ensures now[id] == was[id] {
      assert id != ids[0];
      forall j | 0 <= j < |rest| ensures rest[j] != id {
        assert rest[j] == ids[..|looks|][j + 1];
      }
    }
  }

  /** What a run gets until it stands before its first entry. */
  function Opening(ids: seq<Id>, at: int, reports: seq<Report>): seq<Event> {
    [Start, Listed(Some(ids)), StatusesRead(at, Some(reports))]
  }

  lemma Opens(w: World, ids: seq<Id>, at: int, reports: seq<Report>)
    requires w.phase.Idle? && CanList(w.rows, ids) && ids != [] && |ids| == |reports|
    ensures var w' := Run(w, Opening(ids, at, reports));
            Before(w', ids, reports, at) && w'.rows == w.rows && w'.recordedAt == w.recordedAt && w'.chain == w.chain
  {
    RunThree(w, Start, Listed(Some(ids)), StatusesRead(at, Some(reports)));
  }

  /** Listed and read without an error, and each entry settled in turn. */
  function Pass(rows: map<Id, Row>, ids: seq<Id>, at: int, reports: seq<Report>, looks: seq<Look>): seq<Event>
    requires |looks| <= |ids| && |looks| <= |reports| && forall i :: 0 <= i < |ids| ==> ids[i] in rows
  {
    Opening(ids, at, reports) + Settling(rows, ids, reports, looks)
  }

  lemma PassGoes(w: World, ids: seq<Id>, at: int, reports: seq<Report>, looks: seq<Look>)
    requires w.phase.Idle? && CanList(w.rows, ids) && ids != [] && |ids| == |reports| && |looks| <= |ids|
    ensures Advanced(w, Run(w, Pass(w.rows, ids, at, reports, looks)), ids, reports, at, looks)
  {
    Opens(w, ids, at, reports);
    FirstSettle(Run(w, Opening(ids, at, reports)), ids, reports, at, looks);
    RunConcat(w, Opening(ids, at, reports), Settling(w.rows, ids, reports, looks));
  }

  /** An undisturbed pass confirms each listed withdrawal exactly when its report is final
      without an error, fails it exactly when the report is an error, or there is none and
      it was submitted more than ten minutes before, and leaves every other row; then the
      loop goes on to claim. */
  lemma PassSettles(w: World, ids: seq<Id>, at: int, reports: seq<Report>, looks: seq<Look>, now: int, local: int, events: seq<Event>)
    requires w.phase.Idle? && CanList(w.rows, ids) && ids != [] && |ids| == |reports| == |looks|
    requires Replies(events) == Pass(w.rows, ids, at, reports, looks) + [Proceed(now, local)]
    ensures var w' := Run(w, events);
            && w'.phase.Claiming? && w'.recordedAt == w.recordedAt && w'.chain.broadcast == w.chain.broadcast
            && SettledSoFar(w.rows, w'.rows, ids, reports, looks)
            && (forall i :: 0 <= i < |ids| ==>
                  && (w'.rows[ids[i]].status == Confirmed <==> Pays(reports[i]))
                  && (w'.rows[ids[i]].status == Failed <==> Releases(w.rows[ids[i]], reports[i], looks[i].local))
                  && w'.rows[ids[i]].signature == w.rows[ids[i]].signature)
            && (forall id :: id in w.rows && id !in ids ==> w'.rows[id] == w.rows[id])
  {
    var pass := Pass(w.rows, ids, at, reports, looks);
    PassGoes(w, ids, at, reports, looks);
    RunConcat(w, pass, [Proceed(now, local)]);
    RunOne(Run(w, pass), Proceed(now, local));
    AlikeRun(w, w, events);
    assert ids[..|looks|] == ids;
  }

  /** Nothing submitted: on to claiming. */
  lemma NothingListed(w: World, events: seq<Event>)
    requires w.phase.Idle? && Replies(events) == [Start, Listed(Some([]))]
    ensures Run(w, events).phase.Claiming? && Run(w, events).rows == w.rows && Run(w, events).chain.broadcast == w.chain.broadcast
  {
    RunTwo(w, Start, Listed(Some([])));
    AlikeRun(w, w, events);
  }

  /** A failed listing or status read ends the run and changes nothing. */
  lemma ReadingFails(w: World, ids: seq<Id>, at: int, events: seq<Event>)
    requires w.phase.Idle? && CanList(w.rows, ids) && ids != []
    requires Replies(events) == [Start, Listed(None)] || Replies(events) == [Start, Listed(Some(ids)), StatusesRead(at, None)]
    ensures Run(w, events).phase.Idle? && Run(w, events).rows == w.rows && Run(w, events).chain.broadcast == w.chain.broadcast
  {
    RunTwo(w, Start, Listed(None));
    RunThree(w, Start, Listed(Some(ids)), StatusesRead(at, None));
    AlikeRun(w, w, events);
  }

  /** An update that throws ends the run: the entries before it are settled, its own when
      the update was carried out, and the others are left to the next run. */
  lemma PassStops(w: World, ids: seq<Id>, at: int, reports: seq<Report>, looks: seq<Look>, look: Look, applied: bool, events: seq<Event>)
    requires w.phase.Idle? && CanList(w.rows, ids) && |ids| == |reports| && |looks| < |ids|
    requires Settles(w.rows[ids[|looks|]], reports[|looks|], look)
    requires Replies(events) == Pass(w.rows, ids, at, reports, looks) + [Proceed(look.now, look.local), Database(look.settledAt, DbThrew(applied))]
    ensures Run(w, events).phase.Idle? && Run(w, events).chain.broadcast == w.chain.broadcast
    ensures SettledSoFar(w.rows, Run(w, events).rows, ids, reports, if applied then looks + [look] else looks)
  {
    var pass := Pass(w.rows, ids, at, reports, looks);
    var k := |looks|;
    PassGoes(w, ids, at, reports, looks);
    RunConcat(w, pass, [Proceed(look.now, look.local), Database(look.settledAt, DbThrew(applied))]);
    var mid := Run(w, pass);
    LastSettled(w.rows, mid.rows, ids, reports, looks, look);
    UpdateThrows(mid, ids[k..], reports[k..], at, look, applied);
    AlikeRun(w, w, events);
  }

  lemma UpdateThrows(w: World, ids: seq<Id>, reports: seq<Report>, readAt: int, look: Look, applied: bool)
    requires Before(w, ids, reports, readAt) && ids != [] && Settles(w.rows[ids[0]], reports[0], look)
    ensures var w' := Run(w, [Proceed(look.now, look.local), Database(look.settledAt, DbThrew(applied))]);
            && w'.phase.Idle? && w'.chain == w.chain
            && w'.rows == if applied then w.rows[ids[0] := SettledRow(w.rows[ids[0]], reports[0], look)] else w.rows
  {
    RunTwo(w, Proceed(look.now, look.local), Database(look.settledAt, DbThrew(applied)));
  }

  lemma LastSettled(was: map<Id, Row>, now: map<Id, Row>, ids: seq<Id>, reports: seq<Report>, looks: seq<Look>, look: Look)
    requires CanList(was, ids) && |ids| == |reports| && |looks| < |ids| && SettledSoFar(was, now, ids, reports, looks)
    ensures ids[|looks|] in now && now[ids[|looks|]] == was[ids[|looks|]]
    ensures SettledSoFar(was, now[ids[|looks|] := SettledRow(was[ids[|looks|]], reports[|looks|], look)], ids, reports, looks + [look])
  {
    var k := |looks|;
    assert ids[k] !in ids[..k];
    assert ids[..k + 1] == ids[..k] + [ids[k]];
  }

  // ---- Paying one withdrawal ----

  /** Ready, or cooled down or failed for a minute and made ready by this claim. */
  predicate IsReady(row: Row, id: Id, readied: set<Id>, now: int) {
    row.status == Ready || (id in readied && (row.status == Cooldown || row.status == Failed) && now - row.updatedAt > 60 * 1000)
  }

  /** What the claim makes of the other rows: some that may become ready do. */
  predicate OthersReadied(was: map<Id, Row>, now: map<Id, Row>, id: Option<Id>, readied: set<Id>, at: int) {
    && now.Keys == was.Keys
    && forall other :: other in was && Some(other) != id ==>
         now[other] == if was[other].status != Ready && IsReady(was[other], other, readied, at)
                       then was[other].(status := Ready, updatedAt := at) else was[other]
  }

  /** What a claimed withdrawal gets: its key is unusable, its transaction
      cannot be built, it cannot be recorded, or it is recorded and sent. */
  datatype Course =
    | KeyUnusable
    | NotBuilt(failedAt: int)
    | NotRecorded(nonce: nat, at: int, applied: bool, failedAt: int)
    | RecordedAndSent(nonce: nat, at: int, outcome: SendReply)

  function Paying(id: Option<Id>, readied: set<Id>, now: int, course: Course): seq<Event> {
    match course
    case KeyUnusable => [Claimed(now, readied, id, false, Done)]
    case NotBuilt(failedAt) => [Claimed(now, readied, id, true, Done)] + [Prepared(None), Database(failedAt, Done)]
    case NotRecorded(nonce, at, applied, failedAt) =>
      [Claimed(now, readied, id, true, Done)] + [Prepared(Some(nonce)), Database(at, DbThrew(applied)), Database(failedAt, Done)]
    case RecordedAndSent(nonce, at, outcome) =>
      [Claimed(now, readied, id, true, Done)] + [Prepared(Some(nonce)), Database(at, Done), Sent(outcome)]
  }

  /** The row at the end: submitted with its signature when that was recorded, failed in
      every other course. */
  function PaidRow(row: Row, id: Id, now: int, course: Course): Row {
    match course
    case KeyUnusable => row.(status := Failed, updatedAt := now)
    case NotBuilt(failedAt) => row.(status := Failed, updatedAt := failedAt)
    case NotRecorded(nonce, at, applied, failedAt) =>
      if applied then Row(Failed, Some(Signature(id, nonce)), at, failedAt) else row.(status := Failed, updatedAt := failedAt)
    case RecordedAndSent(nonce, at, _) => Row(Submitted, Some(Signature(id, nonce)), at, at)
  }

  function SentOut(id: Id, course: Course): set<Signature> {
    if course.RecordedAndSent? && !(course.outcome.Refused? && !course.outcome.reached) then {Signature(id, course.nonce)} else {}
  }

  /** The claimed world, before its transaction is built. */
  lemma Claims(w: World, id: Id, readied: set<Id>, now: int, usable: bool)
    requires w.phase.Claiming? && id in w.rows && IsReady(w.rows[id], id, readied, now)
    ensures var w' := Step(w, Claimed(now, readied, Some(id), usable, Done));
            && OthersReadied(w.rows, w'.rows, Some(id), readied, now)
            && w'.rows[id] == w.rows[id].(status := if usable then Processing else Failed, updatedAt := now)
            && w'.phase == (if usable then Preparing(id) else Idle) && w'.recordedAt == w.recordedAt && w'.chain == w.chain
  {
  }

  /** An undisturbed payment: a ready withdrawal that is claimed ends as its course says,
      only what was recorded is sent, and the run ends. */
  lemma PaymentEnds(w: World, id: Id, readied: set<Id>, now: int, course: Course, events: seq<Event>)
    requires w.phase.Claiming? && id in w.rows && IsReady(w.rows[id], id, readied, now)
    requires Replies(events) == Paying(Some(id), readied, now, course)
    ensures var w' := Run(w, events);
            && w'.phase.Idle? && OthersReadied(w.rows, w'.rows, Some(id), readied, now)
            && w'.rows[id] == PaidRow(w.rows[id], id, now, course)
            && w'.chain.broadcast == w.chain.broadcast + SentOut(id, course)
            && (SentOut(id, course) != {} ==> Signature(id, course.nonce) in w'.recordedAt)
  {
    AlikeRun(w, w, events);
    Claims(w, id, readied, now, !course.KeyUnusable?);
    var claim := Claimed(now, readied, Some(id), !course.KeyUnusable?, Done);
    RunOne(w, claim);
    if !course.KeyUnusable? {
      CourseRuns(Step(w, claim), id, now, course);
      RunConcat(w, [claim], Rest(course));
      assert Paying(Some(id), readied, now, course) == [claim] + Rest(course);
    }
  }

  /** The replies after the claim. */
  function Rest(course: Course): seq<Event> {
    match course
    case NotBuilt(failedAt) => [Prepared(None), Database(failedAt, Done)]
    case NotRecorded(nonce, at, applied, failedAt) => [Prepared(Some(nonce)), Database(at, DbThrew(applied)), Database(failedAt, Done)]
    case RecordedAndSent(nonce, at, outcome) => [Prepared(Some(nonce)), Database(at, Done), Sent(outcome)]
    case _ => []
  }

  lemma CourseRuns(w: World, id: Id, now: int, course: Course)
    requires w.phase == Preparing(id) && Processes(w, id) && w.rows[id].updatedAt == now
    requires !course.KeyUnusable?
    ensures var w' := Run(w, Rest(course));
            && w'.phase.Idle? && w'.rows == w.rows[id := PaidRow(w.rows[id], id, now, course)]
            && w'.chain.broadcast == w.chain.broadcast + SentOut(id, course)
            && (SentOut(id, course) != {} ==> Signature(id, course.nonce) in w'.recordedAt)
  {
    match course
    case NotBuilt(failedAt) => RunTwo(w, Prepared(None), Database(failedAt, Done));
    case NotRecorded(_, _, _, _) => RecordingThrows(w, id, now, course);
    case RecordedAndSent(_, _, _) => SendingRuns(w, id, now, course);
    case _ =>
  }

  lemma RecordingThrows(w: World, id: Id, now: int, course: Course)
    requires w.phase == Preparing(id) && Processes(w, id) && course.NotRecorded?
    ensures var w' := Run(w, Rest(course));
            w'.phase.Idle? && w'.rows == w.rows[id := PaidRow(w.rows[id], id, now, course)] && w'.chain == w.chain
  {
    RunThree(w, Prepared(Some(course.nonce)), Database(course.at, DbThrew(course.applied)), Database(course.failedAt, Done));
  }

  lemma SendingRuns(w: World, id: Id, now: int, course: Course)
    requires w.phase == Preparing(id) && Processes(w, id) && course.RecordedAndSent?
    ensures var w' := Run(w, Rest(course));
            && w'.phase.Idle? && w'.rows == w.rows[id := PaidRow(w.rows[id], id, now, course)]
            && w'.chain.broadcast == w.chain.broadcast + SentOut(id, course)
            && Signature(id, course.nonce) in w'.recordedAt
  {
    RunThree(w, Prepared(Some(course.nonce)), Database(course.at, Done), Sent(course.outcome));
  }

  /** Nothing is ready to be claimed: the run ends, and nothing is sent. */
  lemma NothingToPay(w: World, pick: Option<Id>, readied: set<Id>, now: int, usable: bool, events: seq<Event>)
    requires w.phase.Claiming? && (pick.Some? && pick.value in w.rows ==> !IsReady(w.rows[pick.value], pick.value, readied, now))
    requires Replies(events) == [Claimed(now, readied, pick, usable, Done)]
    ensures var w' := Run(w, events);
            && w'.phase.Idle? && OthersReadied(w.rows, w'.rows, None, readied, now) && w'.chain.broadcast == w.chain.broadcast
  {
    RunOne(w, Claimed(now, readied, pick, usable, Done));
    AlikeRun(w, w, events);
  }
}
