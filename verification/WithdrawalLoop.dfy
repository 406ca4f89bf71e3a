/** Paying out withdrawals: `runOnce` of the withdrawal loop over the whole table, cut
    at each `await` like the config payment, with the status updates of the
    repository. Nothing is ever rebroadcast here; a withdrawal whose transaction stays
    unseen for ten minutes is released for a new one. Times are milliseconds. */
module WithdrawalPayouts {
  import opened Options

  type Id = nat

  /** A memo inside each transaction names the withdrawal it pays. */
  datatype Signature = Signature(withdrawal: Id, nonce: nat)

  datatype Status = Cooldown | Ready | Processing | Submitted | Confirmed | Cancelled | Failed

  datatype Row = Row(status: Status, signature: Option<Signature>, submittedAt: int, updatedAt: int)

  /** `landed` maps a signature to whether its transfer succeeded. */
  datatype Chain = Chain(broadcast: set<Signature>, landed: map<Signature, bool>)

  datatype Submission = Submission(id: Id, signature: Signature, submittedAt: int)

  datatype Report = Unseen | Seen(err: bool, finalized: bool)

  datatype Phase =
    | Idle
    | Listing
    | ReadingStatuses(jobs: seq<Submission>)
    | Settling(jobs: seq<Submission>, reports: seq<Report>, readAt: int)
    | Failing(jobs: seq<Submission>, reports: seq<Report>, readAt: int)
    | Confirming(jobs: seq<Submission>, reports: seq<Report>, readAt: int)
    | Claiming
    | Preparing(id: Id)
    | Recording(signature: Signature)
    | Sending(signature: Signature)
    | CaughtFailing(id: Id)

  /** `recordedAt` is when a signature was first written to its row. */
  datatype World = World(rows: map<Id, Row>, recordedAt: map<Signature, int>, chain: Chain, clock: int, phase: Phase)

  const INITIAL := World(map[], map[], Chain({}, map[]), 0, Idle)
  const EXPIRY := 10 * 60 * 1000
  const RETRY := 60_000

  datatype DbReply = Done | DbThrew(applied: bool)

  datatype SendReply = Accepted | OtherSignature | Refused(reached: bool)

  datatype Event =
    | Start
    | Listed(ids: Option<seq<Id>>)                      // None: the query threw
    | StatusesRead(now: int, reports: Option<seq<Report>>)
    | Proceed(now: int, local: int)                     // the settling loop looks at its next entry, and at its own clock
    | Database(now: int, reply: DbReply)
    | Claimed(now: int, readied: set<Id>, pick: Option<Id>, usable: bool, reply: DbReply)
    | Prepared(nonce: Option<nat>)                      // None: building or signing threw
    | Sent(outcome: SendReply)
    | Crash(now: int, applied: bool)
    | Create(now: int, id: Id)                          // a user requests a withdrawal
    | Cancel(now: int, id: Id)                          // a user cancels one
    | Land(now: int, signature: Signature, ok: bool)

  // ---- The row updates of the repository ----

  function MarkFailed(rows: map<Id, Row>, id: Id, now: int): map<Id, Row> {
    if id in rows && (rows[id].status == Processing || rows[id].status == Submitted)
    then rows[id := rows[id].(status := Failed, updatedAt := now)] else rows
  }

  /** Only a submitted withdrawal is confirmed; anything else makes the update throw. */
  function MarkConfirmed(rows: map<Id, Row>, id: Id, now: int): map<Id, Row> {
    if id in rows && rows[id].status == Submitted
    then rows[id := rows[id].(status := Confirmed, updatedAt := now)] else rows
  }

  function MarkSubmitted(rows: map<Id, Row>, s: Signature, now: int): map<Id, Row> {
    if s.withdrawal in rows && rows[s.withdrawal].status == Processing
    then rows[s.withdrawal := Row(Submitted, Some(s), now, now)] else rows
  }

  predicate MayBecomeReady(row: Row, now: int) {
    (row.status == Cooldown || row.status == Failed) && row.updatedAt < now - RETRY
  }

  /** Cooled-down and failed withdrawals become ready. */
  function Advance(rows: map<Id, Row>, readied: set<Id>, now: int): map<Id, Row> {
    map id | id in rows ::
      if id in readied && MayBecomeReady(rows[id], now) then rows[id].(status := Ready, updatedAt := now) else rows[id]
  }

  predicate CanPick(rows: map<Id, Row>, pick: Option<Id>) {
    pick.Some? && pick.value in rows && rows[pick.value].status == Ready
  }

  /** One ready withdrawal is claimed, and failed at once when its wallet key is unusable. */
  function ClaimJob(rows: map<Id, Row>, pick: Option<Id>, usable: bool, now: int): map<Id, Row> {
    if CanPick(rows, pick)
    then rows[pick.value := rows[pick.value].(status := if usable then Processing else Failed, updatedAt := now)]
    else rows
  }

  // ---- Steps ----

  function Broadcast(w: World, s: Signature): World {
    w.(chain := w.chain.(broadcast := w.chain.broadcast + {s}))
  }

  /** What the awaited request does when it is carried out. */
  function Effect(w: World, now: int): World {
    match w.phase
    case Failing(jobs, _, _) => if jobs == [] then w else w.(rows := MarkFailed(w.rows, jobs[0].id, now))
    case Confirming(jobs, _, _) => if jobs == [] then w else w.(rows := MarkConfirmed(w.rows, jobs[0].id, now))
    case CaughtFailing(id) => w.(rows := MarkFailed(w.rows, id, now))
    case Recording(s) => w.(rows := MarkSubmitted(w.rows, s, now), recordedAt := if s in w.recordedAt then w.recordedAt else w.recordedAt[s := now])
    case Sending(s) => Broadcast(w, s)
    case _ => w
  }

  function Jobs(rows: map<Id, Row>, ids: seq<Id>): (jobs: seq<Submission>)
    requires forall i :: 0 <= i < |ids| ==> ids[i] in rows && rows[ids[i]].signature.Some?
    ensures |jobs| == |ids|
    ensures forall i :: 0 <= i < |ids| ==> jobs[i] == Submission(ids[i], rows[ids[i]].signature.value, rows[ids[i]].submittedAt)
  {
    seq(|ids|, i requires 0 <= i < |ids| => Submission(ids[i], rows[ids[i]].signature.value, rows[ids[i]].submittedAt))
  }

  predicate IsSubmitted(rows: map<Id, Row>, id: Id) {
    id in rows && rows[id].status == Submitted && rows[id].signature.Some?
  }

  predicate CanList(rows: map<Id, Row>, ids: seq<Id>) {
    && |ids| <= 100
    && (forall i :: 0 <= i < |ids| ==> IsSubmitted(rows, ids[i]))
    && (forall i, j :: 0 <= i < j < |ids| ==> ids[i] != ids[j])
  }

  /** The branch the settling loop takes for its first remaining entry. */
  function Settle(phase: Phase, now: int): Phase {
    if !phase.Settling? then phase
    else if phase.jobs == [] || phase.reports == [] then Claiming
    else
      var job, report := phase.jobs[0], phase.reports[0];
      if report.Seen? && report.err then Failing(phase.jobs, phase.reports, phase.readAt)
      else if report.Seen? && report.finalized then Confirming(phase.jobs, phase.reports, phase.readAt)
      else if report.Unseen? && now - job.submittedAt > EXPIRY then Failing(phase.jobs, phase.reports, phase.readAt)
      else Settling(phase.jobs[1..], phase.reports[1..], phase.readAt)
  }

  function Rest(jobs: seq<Submission>, reports: seq<Report>, readAt: int): Phase {
    if jobs == [] || reports == [] then Claiming else Settling(jobs[1..], reports[1..], readAt)
  }

  function AfterDatabase(w: World, threw: bool): Phase {
    match w.phase
    case Failing(jobs, reports, readAt) => if threw then Idle else Rest(jobs, reports, readAt)
    case Confirming(jobs, reports, readAt) =>
      if threw || (jobs != [] && jobs[0].id in w.rows && w.rows[jobs[0].id].status != Submitted && w.rows[jobs[0].id].status != Confirmed)
      then Idle else Rest(jobs, reports, readAt)
    case Recording(s) => if threw then CaughtFailing(s.withdrawal) else Sending(s)
    case CaughtFailing(_) => Idle
    case _ => w.phase
  }

  predicate AwaitsDatabase(phase: Phase) {
    phase.Failing? || phase.Confirming? || phase.Recording? || phase.CaughtFailing?
  }

  function Step(w: World, e: Event): World {
    match e
    case Start => if w.phase.Idle? then w.(phase := Listing) else w
    case Listed(ids) =>
      if !w.phase.Listing? then w
      else if ids.None? || !CanList(w.rows, ids.value) then w.(phase := Idle)
      else if ids.value == [] then w.(phase := Claiming)
      else w.(phase := ReadingStatuses(Jobs(w.rows, ids.value)))
    case StatusesRead(now, reports) =>
      if !w.phase.ReadingStatuses? then w
      else if reports.None? || |reports.value| != |w.phase.jobs| then w.(clock := now, phase := Idle)
      else w.(clock := now, phase := Settling(w.phase.jobs, reports.value, now))
    case Proceed(now, local) => w.(clock := now, phase := Settle(w.phase, local))
    case Database(now, reply) =>
      if !AwaitsDatabase(w.phase) then w
      else (if reply.Done? || reply.applied then Effect(w, now) else w).(clock := now, phase := AfterDatabase(w, reply.DbThrew?))
    case Claimed(now, readied, pick, usable, reply) =>
      if !w.phase.Claiming? then w
      else
        var advanced := Advance(w.rows, readied, now);
        w.(rows := if reply.Done? || reply.applied then ClaimJob(advanced, pick, usable, now) else w.rows,
           clock := now,
           phase := if reply.Done? && usable && CanPick(advanced, pick) then Preparing(pick.value) else Idle)
    case Prepared(nonce) =>
      if !w.phase.Preparing? then w
      else w.(phase := if nonce.None? then CaughtFailing(w.phase.id) else Recording(Signature(w.phase.id, nonce.value)))
    case Sent(outcome) =>
      if !w.phase.Sending? then w
      else (if outcome.Refused? && !outcome.reached then w else Effect(w, w.clock)).(phase := Idle)
    case Crash(now, applied) => (if applied then Effect(w, now) else w).(clock := now, phase := Idle)
    case Create(now, id) =>
      if id in w.rows then w else w.(clock := now, rows := w.rows[id := Row(Cooldown, None, 0, now)])
    case Cancel(now, id) =>
      if id in w.rows && w.rows[id].status in {Cooldown, Ready, Failed}
      then w.(clock := now, rows := w.rows[id := w.rows[id].(status := Cancelled, updatedAt := now)]) else w
    case Land(now, s, ok) => w.(clock := now, chain := w.chain.(landed := w.chain.landed[s := ok]))
  }

  // ---- What the environment is assumed to do ----

  /** `lifetime` bounds how long after its first recording a transaction may still land,
      `delay` how long after the status reply an entry of it is looked at, `skew` how far
      the worker's clock may be ahead of the database's, by which all else is timed. */
  datatype Timing = Timing(lifetime: nat, delay: nat, skew: nat)

  /** What has to fit in the ten minutes. */
  predicate Fits(t: Timing) { t.lifetime + t.delay + t.skew <= EXPIRY }

  predicate Succeeded(chain: Chain, s: Signature) { s in chain.landed && chain.landed[s] }

  predicate Dead(chain: Chain, s: Signature) { s in chain.landed && !chain.landed[s] }

  /** Errors and finality are reported truly, and a landed transaction is not unseen:
      the query searches the node's whole history. */
  predicate Truthful(chain: Chain, s: Signature, report: Report) {
    match report
    case Unseen => s !in chain.landed
    case Seen(err, finalized) => (err ==> Dead(chain, s)) && (finalized && !err ==> Succeeded(chain, s))
  }

  function TimeOf(w: World, e: Event): int {
    match e
    case StatusesRead(now, _) => now
    case Proceed(now, _) => now
    case Database(now, _) => now
    case Claimed(now, _, _, _, _) => now
    case Crash(now, _) => now
    case Create(now, _) => now
    case Cancel(now, _) => now
    case Land(now, _, _) => now
    case _ => w.clock
  }

  predicate Possible(w: World, e: Event, t: Timing) {
    && w.clock <= TimeOf(w, e)
    && match e
       case Listed(ids) => ids.Some? ==> CanList(w.rows, ids.value)
       case StatusesRead(_, reports) =>
         w.phase.ReadingStatuses? && reports.Some? ==>
           && |reports.value| == |w.phase.jobs|
           && forall i :: 0 <= i < |reports.value| ==> Truthful(w.chain, w.phase.jobs[i].signature, reports.value[i])
       case Proceed(now, local) => w.phase.Settling? ==> now - w.phase.readAt <= t.delay && local <= now + t.skew
       case Land(now, s, _) =>
         && s in w.chain.broadcast && s !in w.chain.landed
         && s in w.recordedAt && now <= w.recordedAt[s] + t.lifetime
       case _ => true
  }

  ghost predicate PossibleRun(w: World, events: seq<Event>, t: Timing)
    decreases |events|
  {
    events != [] ==> Possible(w, events[0], t) && PossibleRun(Step(w, events[0]), events[1..], t)
  }

  function Run(w: World, events: seq<Event>): World
    decreases |events|
  {
    if events == [] then w else Run(Step(w, events[0]), events[1..])
  }

  lemma {:induction false} RunAppend(w: World, events: seq<Event>, e: Event)
    ensures Run(w, events + [e]) == Step(Run(w, events), e)
    decreases |events|
  {
    var all := events + [e];
    if events == [] {
      assert all[1..] == [];
    } else {
      RunAppend(Step(w, events[0]), events[1..], e);
      assert all[0] == events[0] && all[1..] == events[1..] + [e];
    }
  }

  lemma {:induction false} RunConcat(w: World, a: seq<Event>, b: seq<Event>)
    ensures Run(w, a + b) == Run(Run(w, a), b)
    decreases |a|
  {
    if a == [] {
      assert a + b == b;
    } else {
      RunConcat(Step(w, a[0]), a[1..], b);
      assert (a + b)[1..] == a[1..] + b;
    }
  }

  // ---- The invariant ----

  /** A transfer that has succeeded, or that was sent and may still land. */
  predicate Live(w: World, t: Timing, s: Signature) {
    || Succeeded(w.chain, s)
    || (s in w.chain.broadcast && s !in w.chain.landed && s in w.recordedAt && w.clock <= w.recordedAt[s] + t.lifetime)
  }

  /** The row of the signature's withdrawal carries it, with its time of recording. */
  predicate Holds(w: World, s: Signature) {
    && s.withdrawal in w.rows && s in w.recordedAt
    && w.rows[s.withdrawal].signature == Some(s)
    && (w.rows[s.withdrawal].status == Submitted || w.rows[s.withdrawal].status == Confirmed)
    && w.rows[s.withdrawal].submittedAt >= w.recordedAt[s]
  }

  ghost predicate LiveIsHeld(w: World, t: Timing) {
    forall s :: Live(w, t, s) ==> Holds(w, s)
  }

  ghost predicate NoneLive(w: World, t: Timing, id: Id) {
    forall s: Signature :: s.withdrawal == id ==> !Live(w, t, s)
  }

  predicate Processes(w: World, id: Id) { id in w.rows && w.rows[id].status == Processing }

  /** A listed submission whose row is as it was when listed. */
  predicate Pending(w: World, job: Submission) {
    && job.id in w.rows && w.rows[job.id].status == Submitted
    && job.signature.withdrawal == job.id && job.signature in w.recordedAt
    && w.rows[job.id].signature == Some(job.signature)
    && w.rows[job.id].submittedAt == job.submittedAt >= w.recordedAt[job.signature]
  }

  ghost predicate JobsPending(w: World, jobs: seq<Submission>) {
    && (forall i :: 0 <= i < |jobs| ==> Pending(w, jobs[i]))
    && (forall i, j :: 0 <= i < j < |jobs| ==> jobs[i].id != jobs[j].id)
  }

  /** What a report still says after the read: an unseen transaction can only have
      landed since, hence within its lifetime. */
  predicate StillTrue(w: World, t: Timing, job: Submission, report: Report, readAt: int) {
    match report
    case Unseen => job.signature in w.chain.landed ==> readAt <= job.submittedAt + t.lifetime
    case Seen(err, finalized) =>
      (err ==> Dead(w.chain, job.signature)) && (finalized && !err ==> Succeeded(w.chain, job.signature))
  }

  ghost predicate ReportsHold(w: World, t: Timing, jobs: seq<Submission>, reports: seq<Report>, readAt: int) {
    && |reports| == |jobs| && readAt <= w.clock && JobsPending(w, jobs)
    && forall i :: 0 <= i < |jobs| ==> StillTrue(w, t, jobs[i], reports[i], readAt)
  }

  ghost predicate PhaseInv(w: World, t: Timing) {
    match w.phase
    case Idle => true
    case Listing => true
    case ReadingStatuses(jobs) => JobsPending(w, jobs)
    case Settling(jobs, reports, readAt) => ReportsHold(w, t, jobs, reports, readAt)
    case Failing(jobs, reports, readAt) =>
      ReportsHold(w, t, jobs, reports, readAt) && jobs != [] && !Live(w, t, jobs[0].signature)
    case Confirming(jobs, reports, readAt) =>
      ReportsHold(w, t, jobs, reports, readAt) && jobs != [] && Succeeded(w.chain, jobs[0].signature)
    case Claiming => true
    case Preparing(id) => Processes(w, id)
    case Recording(s) => Processes(w, s.withdrawal)
    case Sending(s) => Holds(w, s) && w.rows[s.withdrawal].status == Submitted
    case CaughtFailing(id) => id in w.rows && NoneLive(w, t, id)
  }

  /** Every row in state `submitted` was put there with the signature it shows. */
  ghost predicate RowsInv(w: World) {
    && (forall id :: id in w.rows && w.rows[id].status == Submitted ==>
          var row := w.rows[id];
          row.signature.Some? && row.signature.value.withdrawal == id && row.signature.value in w.recordedAt
          && row.submittedAt >= w.recordedAt[row.signature.value])
    && (forall id :: id in w.rows && w.rows[id].status == Confirmed ==>
          w.rows[id].signature.Some? && Succeeded(w.chain, w.rows[id].signature.value))
  }

  /** Nothing is broadcast before its signature is in the row. */
  ghost predicate RecordedFirst(w: World) {
    && w.chain.landed.Keys <= w.chain.broadcast <= w.recordedAt.Keys
    && forall s :: s in w.recordedAt ==> w.recordedAt[s] <= w.clock
  }

  ghost predicate Inv(w: World, t: Timing) {
    && RecordedFirst(w)
    && LiveIsHeld(w, t) && RowsInv(w) && PhaseInv(w, t)
  }

  ghost predicate PaidAtMostOnce(chain: Chain) {
    forall s: Signature, s': Signature :: Succeeded(chain, s) && Succeeded(chain, s') && s.withdrawal == s'.withdrawal ==> s == s'
  }

  lemma InvMeansAtMostOnce(w: World, t: Timing)
    requires Inv(w, t)
    ensures PaidAtMostOnce(w.chain)
  {
    forall s, s' | Succeeded(w.chain, s) && Succeeded(w.chain, s') && s.withdrawal == s'.withdrawal ensures s == s' {
      assert Live(w, t, s) && Live(w, t, s');
    }
  }

  // ---- Every step keeps the invariant ----

  /** Whatever is not live stays so as time passes. */
  lemma TimeKeeps(w: World, t: Timing, now: int)
    requires w.clock <= now
    ensures forall s :: Live(w.(clock := now), t, s) ==> Live(w, t, s)
  {
  }

  /** A row that is neither submitted nor confirmed has no live transaction. */
  lemma ReleasedHasNoneLive(w: World, t: Timing, id: Id)
    requires LiveIsHeld(w, t) && id in w.rows
    requires w.rows[id].status != Submitted && w.rows[id].status != Confirmed
    ensures NoneLive(w, t, id)
  {
    forall s: Signature | s.withdrawal == id ensures !Live(w, t, s) {
      assert Live(w, t, s) ==> Holds(w, s);
    }
  }

  lemma ListKeeps(w: World, t: Timing, ids: Option<seq<Id>>)
    requires Inv(w, t) && Possible(w, Listed(ids), t)
    ensures Inv(Step(w, Listed(ids)), t)
  {
    var w' := Step(w, Listed(ids));
    forall s | Live(w', t, s) ensures Live(w, t, s) && Holds(w', s) {
      assert Holds(w, s);
    }
  }

  lemma ReadKeeps(w: World, t: Timing, now: int, reports: Option<seq<Report>>)
    requires Inv(w, t) && Possible(w, StatusesRead(now, reports), t)
    ensures Inv(Step(w, StatusesRead(now, reports)), t)
  {
    var w' := Step(w, StatusesRead(now, reports));
    TimeKeeps(w, t, now);
    forall s | Live(w', t, s) ensures Live(w, t, s) && Holds(w', s) {
      assert Holds(w, s);
    }
    if w'.phase.Settling? {
      assert forall i :: 0 <= i < |w.phase.jobs| ==> Pending(w, w.phase.jobs[i]) && Pending(w', w.phase.jobs[i]);
    }
  }

  /** The ten-minute rule is sound when a transaction cannot outlive ten minutes less the
      delay and the skew: by the time of the read it could land no more, and it had not. */
  lemma ExpiredIsNotLive(w: World, t: Timing, job: Submission, readAt: int, now: int, local: int)
    requires Pending(w, job) && StillTrue(w, t, job, Unseen, readAt)
    requires readAt <= w.clock <= now && now - readAt <= t.delay && local <= now + t.skew && Fits(t)
    requires local - job.submittedAt > EXPIRY
    ensures !Live(w.(clock := now), t, job.signature)
  {
  }

  lemma ProceedKeeps(w: World, t: Timing, now: int, local: int)
    requires Inv(w, t) && Possible(w, Proceed(now, local), t) && Fits(t)
    ensures Inv(Step(w, Proceed(now, local)), t)
  {
    var w' := Step(w, Proceed(now, local));
    TimeKeeps(w, t, now);
    forall s | Live(w', t, s) ensures Live(w, t, s) && Holds(w', s) {
      assert Holds(w, s);
    }
    if w.phase.Settling? && w.phase.jobs != [] {
      var jobs, reports, readAt := w.phase.jobs, w.phase.reports, w.phase.readAt;
      assert Pending(w, jobs[0]) && StillTrue(w, t, jobs[0], reports[0], readAt);
      if reports[0].Unseen? && local - jobs[0].submittedAt > EXPIRY {
        ExpiredIsNotLive(w, t, jobs[0], readAt, now, local);
      }
      assert forall i :: 0 <= i < |jobs| ==> Pending(w, jobs[i]) && Pending(w', jobs[i]);
      assert forall i :: 0 <= i < |jobs| ==> StillTrue(w, t, jobs[i], reports[i], readAt) && StillTrue(w', t, jobs[i], reports[i], readAt);
    } else if !w.phase.Settling? {
      FrameKeeps(w, w', t);
    }
  }

  /** The environment moved while the loop waits: time went on, a broadcast transaction
      may have landed in its lifetime, and only rows outside the payout changed. */
  ghost predicate Frame(w: World, w': World, t: Timing) {
    && w'.phase == w.phase && w.clock <= w'.clock && w'.recordedAt == w.recordedAt
    && (forall id :: id in w.rows ==> id in w'.rows)
    && (forall id :: id in w.rows && w.rows[id].status in {Processing, Submitted, Confirmed} ==> w'.rows[id] == w.rows[id])
    && (forall s :: s in w.chain.landed ==> s in w'.chain.landed && w'.chain.landed[s] == w.chain.landed[s])
    && (forall s :: s in w'.chain.landed && s !in w.chain.landed ==>
          s in w.recordedAt && w'.clock <= w.recordedAt[s] + t.lifetime)
    && (forall s :: Live(w', t, s) ==> Live(w, t, s))
  }

  lemma FrameJobs(w: World, w': World, t: Timing, jobs: seq<Submission>, reports: seq<Report>, readAt: int)
    requires Frame(w, w', t) && ReportsHold(w, t, jobs, reports, readAt)
    ensures ReportsHold(w', t, jobs, reports, readAt)
  {
    forall i | 0 <= i < |jobs| ensures Pending(w', jobs[i]) && StillTrue(w', t, jobs[i], reports[i], readAt) {
      assert Pending(w, jobs[i]) && StillTrue(w, t, jobs[i], reports[i], readAt);
    }
  }

  lemma FrameKeeps(w: World, w': World, t: Timing)
    requires Frame(w, w', t) && PhaseInv(w, t)
    ensures PhaseInv(w', t)
  {
    match w.phase
    case ReadingStatuses(jobs) =>
      forall i | 0 <= i < |jobs| ensures Pending(w', jobs[i]) {
        assert Pending(w, jobs[i]);
      }
    case Settling(jobs, reports, readAt) => FrameJobs(w, w', t, jobs, reports, readAt);
    case Failing(jobs, reports, readAt) =>
      FrameJobs(w, w', t, jobs, reports, readAt);
      assert !Live(w, t, jobs[0].signature);
    case Confirming(jobs, reports, readAt) => FrameJobs(w, w', t, jobs, reports, readAt);
    case CaughtFailing(id) =>
      forall s: Signature | s.withdrawal == id ensures !Live(w', t, s) {
        assert !Live(w, t, s);
      }
    case _ =>
  }

  lemma LandKeeps(w: World, t: Timing, now: int, s: Signature, ok: bool)
    requires Inv(w, t) && Possible(w, Land(now, s, ok), t)
    ensures Inv(Step(w, Land(now, s, ok)), t)
  {
    var w' := Step(w, Land(now, s, ok));
    assert Live(w, t, s);
    forall s' | Live(w', t, s') ensures Live(w, t, s') && Holds(w', s') {
      assert Live(w, t, s');
      assert Holds(w, s');
    }
    FrameKeeps(w, w', t);
    forall id | id in w'.rows && w'.rows[id].status == Confirmed
      ensures w'.rows[id].signature.Some? && Succeeded(w'.chain, w'.rows[id].signature.value)
    {
      assert Succeeded(w.chain, w.rows[id].signature.value);
    }
  }

  lemma UserLeavesPaid(w: World, t: Timing, e: Event)
    requires Inv(w, t) && Possible(w, e, t) && (e.Create? || e.Cancel?)
    ensures var w' := Step(w, e); LiveIsHeld(w', t) && RowsInv(w') && RecordedFirst(w')
  {
    var w' := Step(w, e);
    TimeKeeps(w, t, w'.clock);
    forall s | Live(w', t, s) ensures Holds(w', s) {
      assert Live(w, t, s) && Holds(w, s);
    }
  }

  lemma UserKeeps(w: World, t: Timing, e: Event)
    requires Inv(w, t) && Possible(w, e, t) && (e.Create? || e.Cancel?)
    ensures Inv(Step(w, e), t)
  {
    UserLeavesPaid(w, t, e);
    TimeKeeps(w, t, Step(w, e).clock);
    FrameKeeps(w, Step(w, e), t);
  }

  /** Carrying out the awaited request keeps rows and chain in order, whether or not
      the code learns of it; no other withdrawal is touched. */
  lemma EffectKeeps(w: World, t: Timing, now: int)
    requires Inv(w, t) && w.clock <= now
    ensures var w' := Effect(w, now).(clock := now);
            LiveIsHeld(w', t) && RowsInv(w') && RecordedFirst(w')
  {
    match w.phase
    case Failing(_, _, _) => FailKeeps(w, t, now);
    case Confirming(_, _, _) => ConfirmKeeps(w, t, now);
    case CaughtFailing(_) => CaughtFailKeeps(w, t, now);
    case Recording(s0) => RecordKeeps(w, t, now, s0);
    case Sending(s0) => SendingKeeps(w, t, now, s0);
    case _ => TimeKeeps(w, t, now);
  }

  lemma ConfirmKeeps(w: World, t: Timing, now: int)
    requires Inv(w, t) && w.phase.Confirming? && w.clock <= now
    ensures var w' := Effect(w, now).(clock := now);
            LiveIsHeld(w', t) && RowsInv(w') && RecordedFirst(w')
  {
    var w' := Effect(w, now).(clock := now);
    TimeKeeps(w, t, now);
    assert Pending(w, w.phase.jobs[0]);
    forall s | Live(w', t, s) ensures Holds(w', s) {
      assert Live(w, t, s) && Holds(w, s);
    }
  }

  lemma CaughtFailKeeps(w: World, t: Timing, now: int)
    requires Inv(w, t) && w.phase.CaughtFailing? && w.clock <= now
    ensures var w' := Effect(w, now).(clock := now);
            LiveIsHeld(w', t) && RowsInv(w') && RecordedFirst(w')
  {
    var w' := Effect(w, now).(clock := now);
    TimeKeeps(w, t, now);
    forall s | Live(w', t, s) ensures Holds(w', s) {
      assert Live(w, t, s) && Holds(w, s);
    }
  }

  lemma SendingKeeps(w: World, t: Timing, now: int, s0: Signature)
    requires Inv(w, t) && w.phase == Sending(s0) && w.clock <= now
    ensures var w' := Effect(w, now).(clock := now);
            LiveIsHeld(w', t) && RowsInv(w') && RecordedFirst(w')
  {
    var w' := Effect(w, now).(clock := now);
    TimeKeeps(w, t, now);
    forall s | Live(w', t, s) ensures Holds(w', s) {
      assert s != s0 ==> Live(w, t, s) && Holds(w, s);
    }
  }

  lemma FailKeeps(w: World, t: Timing, now: int)
    requires Inv(w, t) && w.phase.Failing? && w.clock <= now
    ensures var w' := Effect(w, now).(clock := now);
            LiveIsHeld(w', t) && RowsInv(w') && RecordedFirst(w')
  {
    var w' := Effect(w, now).(clock := now);
    TimeKeeps(w, t, now);
    assert Pending(w, w.phase.jobs[0]) && !Live(w, t, w.phase.jobs[0].signature);
    forall s | Live(w', t, s) ensures Holds(w', s) {
      assert Live(w, t, s) && Holds(w, s);
    }
  }

  lemma RecordKeeps(w: World, t: Timing, now: int, s0: Signature)
    requires Inv(w, t) && w.phase == Recording(s0) && w.clock <= now
    ensures var w' := Effect(w, now).(clock := now);
            LiveIsHeld(w', t) && RowsInv(w') && RecordedFirst(w')
  {
    var w' := Effect(w, now).(clock := now);
    TimeKeeps(w, t, now);
    ReleasedHasNoneLive(w, t, s0.withdrawal);
    forall s | Live(w', t, s) ensures Holds(w', s) {
      if s.withdrawal != s0.withdrawal {
        assert Live(w, t, s) && Holds(w, s);
      }
    }
    forall id | id in w'.rows && w'.rows[id].status == Submitted
      ensures var row := w'.rows[id];
              row.signature.Some? && row.signature.value.withdrawal == id && row.signature.value in w'.recordedAt
              && row.submittedAt >= w'.recordedAt[row.signature.value]
    {
      assert id != s0.withdrawal ==> w.rows[id] == w'.rows[id];
    }
  }

  lemma DatabaseKeeps(w: World, t: Timing, now: int, reply: DbReply)
    requires Inv(w, t) && AwaitsDatabase(w.phase) && w.clock <= now
    ensures Inv(Step(w, Database(now, reply)), t)
  {
    var w' := Step(w, Database(now, reply));
    EffectKeeps(w, t, now);
    TimeKeeps(w, t, now);
    var w1 := if reply.Done? || reply.applied then Effect(w, now).(clock := now) else w.(clock := now);
    assert w' == w1.(phase := w'.phase);
    forall s | Live(w', t, s) ensures Holds(w', s) {
      assert Live(w1, t, s);
      assert Holds(w1, s);
    }
    match w.phase
    case Failing(jobs, reports, readAt) => RestKeeps(w, w', t, jobs, reports, readAt);
    case Confirming(jobs, reports, readAt) => RestKeeps(w, w', t, jobs, reports, readAt);
    case Recording(s) => if w'.phase.CaughtFailing? {
      RecordingFailed(w, w', t, s);
    }
    case CaughtFailing(id) =>
  }

  lemma RestKeeps(w: World, w': World, t: Timing, jobs: seq<Submission>, reports: seq<Report>, readAt: int)
    requires ReportsHold(w, t, jobs, reports, readAt) && jobs != []
    requires w'.chain == w.chain && w'.recordedAt == w.recordedAt && w.clock <= w'.clock
    requires forall id :: id in w.rows && id != jobs[0].id ==> id in w'.rows && w'.rows[id] == w.rows[id]
    requires w'.phase == Rest(jobs, reports, readAt) || w'.phase == Idle
    ensures PhaseInv(w', t)
  {
    forall i | 1 <= i < |jobs| ensures Pending(w', jobs[i]) && StillTrue(w', t, jobs[i], reports[i], readAt) {
      assert Pending(w, jobs[i]) && StillTrue(w, t, jobs[i], reports[i], readAt);
    }
  }

  /** A failure before the caller knows the signature is recorded releases the
      withdrawal, and rightly: its transaction has not been sent. */
  lemma RecordingFailed(w: World, w': World, t: Timing, s: Signature)
    requires Inv(w, t) && w.phase == Recording(s)
    requires w'.chain == w.chain && w'.phase == CaughtFailing(s.withdrawal) && w.clock <= w'.clock
    requires s.withdrawal in w'.rows
    requires w'.recordedAt == w.recordedAt || (s !in w.recordedAt && w'.recordedAt == w.recordedAt[s := w'.clock])
    ensures PhaseInv(w', t)
  {
    ReleasedHasNoneLive(w, t, s.withdrawal);
    assert s.withdrawal in w'.rows;
  }

  lemma ClaimKeeps(w: World, t: Timing, e: Event)
    requires Inv(w, t) && e.Claimed? && w.phase.Claiming? && w.clock <= e.now
    ensures Inv(Step(w, e), t)
  {
    var w' := Step(w, e);
    TimeKeeps(w, t, e.now);
    forall s | Live(w', t, s) ensures Holds(w', s) {
      assert Live(w, t, s) && Holds(w, s);
    }
  }

  lemma StepKeeps(w: World, t: Timing, e: Event)
    requires Inv(w, t) && Possible(w, e, t) && Fits(t)
    ensures Inv(Step(w, e), t)
  {
    match e
    case Start => assert LiveIsHeld(Step(w, e), t) by {
      forall s | Live(Step(w, e), t, s) ensures Holds(Step(w, e), s) { assert Live(w, t, s) && Holds(w, s); }
    }
    case Listed(ids) => ListKeeps(w, t, ids);
    case StatusesRead(now, reports) => ReadKeeps(w, t, now, reports);
    case Proceed(now, local) => ProceedKeeps(w, t, now, local);
    case Database(now, reply) => if AwaitsDatabase(w.phase) { DatabaseKeeps(w, t, now, reply); }
    case Claimed(now, _, _, _, _) => if w.phase.Claiming? { ClaimKeeps(w, t, e); }
    case Prepared(nonce) => PrepareKeeps(w, t, nonce);
    case Sent(outcome) => SendKeeps(w, t, outcome);
    case Crash(now, applied) => CrashKeeps(w, t, now, applied);
    case Create(_, _) => UserKeeps(w, t, e);
    case Cancel(_, _) => UserKeeps(w, t, e);
    case Land(now, s, ok) => LandKeeps(w, t, now, s, ok);
  }

  lemma PrepareKeeps(w: World, t: Timing, nonce: Option<nat>)
    requires Inv(w, t)
    ensures Inv(Step(w, Prepared(nonce)), t)
  {
    var w' := Step(w, Prepared(nonce));
    forall s | Live(w', t, s) ensures Holds(w', s) {
      assert Live(w, t, s) && Holds(w, s);
    }
    if w.phase.Preparing? && nonce.None? {
      ReleasedHasNoneLive(w, t, w.phase.id);
    }
  }

  lemma SendKeeps(w: World, t: Timing, outcome: SendReply)
    requires Inv(w, t)
    ensures Inv(Step(w, Sent(outcome)), t)
  {
    var w' := Step(w, Sent(outcome));
    if w.phase.Sending? {
      EffectKeeps(w, t, w.clock);
      forall s | Live(w', t, s) ensures Holds(w', s) {
        assert Live(w, t, s) ==> Holds(w, s);
        assert s != w.phase.signature ==> Live(w, t, s);
      }
    }
  }

  lemma CrashKeeps(w: World, t: Timing, now: int, applied: bool)
    requires Inv(w, t) && w.clock <= now
    ensures Inv(Step(w, Crash(now, applied)), t)
  {
    var w' := Step(w, Crash(now, applied));
    EffectKeeps(w, t, now);
    TimeKeeps(w, t, now);
    var w1 := if applied then Effect(w, now).(clock := now) else w.(clock := now);
    forall s | Live(w', t, s) ensures Holds(w', s) {
      assert Live(w1, t, s);
      assert Holds(w1, s);
    }
  }

  lemma {:induction false} RunKeeps(w: World, t: Timing, events: seq<Event>)
    requires Inv(w, t) && PossibleRun(w, events, t) && Fits(t)
    ensures Inv(Run(w, events), t)
    decreases |events|
  {
    if events != [] {
      StepKeeps(w, t, events[0]);
      RunKeeps(Step(w, events[0]), t, events[1..]);
    }
  }

  // ---- The results ----

  ghost predicate Reachable(w: World, t: Timing) {
    exists events :: PossibleRun(INITIAL, events, t) && Run(INITIAL, events) == w
  }

  /** Over any run of the loop, with crashes at any await, users requesting and
      cancelling, and any number of withdrawals: each is paid at most once, and
      nothing is broadcast before its signature is in the row. */
  lemma EachPaidAtMostOnce(t: Timing, events: seq<Event>)
    requires PossibleRun(INITIAL, events, t) && Fits(t)
    ensures PaidAtMostOnce(Run(INITIAL, events).chain)
    ensures Run(INITIAL, events).chain.broadcast <= Run(INITIAL, events).recordedAt.Keys
  {
    RunKeeps(INITIAL, t, events);
    InvMeansAtMostOnce(Run(INITIAL, events), t);
  }

  lemma {:induction false} AppendEvent(w: World, events: seq<Event>, e: Event, t: Timing)
    requires PossibleRun(w, events, t) && Possible(Run(w, events), e, t)
    ensures PossibleRun(w, events + [e], t)
    decreases |events|
  {
    var all := events + [e];
    if events == [] {
      assert all[1..] == [];
    } else {
      AppendEvent(Step(w, events[0]), events[1..], e, t);
      assert all[0] == events[0] && all[1..] == events[1..] + [e];
    }
  }

  lemma Extend(w: World, e: Event, t: Timing) returns (w': World)
    requires Reachable(w, t) && Possible(w, e, t)
    ensures w' == Step(w, e) && Reachable(w', t)
  {
    w' := Step(w, e);
    var events :| PossibleRun(INITIAL, events, t) && Run(INITIAL, events) == w;
    AppendEvent(INITIAL, events, e, t);
    RunAppend(INITIAL, events, e);
  }

  lemma ClaimZero(w: World, t: Timing) returns (w': World)
    requires Reachable(w, t) && w.phase.Claiming?
    requires 0 in w.rows && MayBecomeReady(w.rows[0], w.clock + RETRY + 1)
    ensures Reachable(w', t) && w'.phase == Preparing(0) && Processes(w', 0)
    ensures w'.recordedAt == w.recordedAt && w'.chain == w.chain && w'.clock == w.clock + RETRY + 1
  {
    var now := w.clock + RETRY + 1;
    var advanced := Advance(w.rows, {0}, now);
    assert advanced[0].status == Ready;
    w' := Extend(w, Claimed(now, {0}, Some(0), true, Done), t);
  }

  /** Claiming, signing, recording and sending withdrawal 0 at one moment. */
  lemma PayOut(w: World, nonce: nat, t: Timing) returns (w': World)
    requires Reachable(w, t) && w.phase.Claiming?
    requires 0 in w.rows && MayBecomeReady(w.rows[0], w.clock + RETRY + 1)
    requires Signature(0, nonce) !in w.recordedAt
    ensures Reachable(w', t) && w'.phase.Idle? && w'.clock == w.clock + RETRY + 1
    ensures 0 in w'.rows && w'.rows[0].status == Submitted && w'.rows[0].submittedAt == w'.clock
    ensures w'.rows[0].signature == Some(Signature(0, nonce))
    ensures w'.recordedAt == w.recordedAt[Signature(0, nonce) := w'.clock]
    ensures w'.chain == w.chain.(broadcast := w.chain.broadcast + {Signature(0, nonce)})
  {
    w' := ClaimZero(w, t);
    w' := SendZero(w', nonce, t);
  }

  lemma SendZero(w: World, nonce: nat, t: Timing) returns (w': World)
    requires Reachable(w, t) && w.phase == Preparing(0) && Processes(w, 0)
    requires Signature(0, nonce) !in w.recordedAt
    ensures Reachable(w', t) && w'.phase.Idle? && w'.clock == w.clock
    ensures 0 in w'.rows && w'.rows[0].status == Submitted && w'.rows[0].submittedAt == w'.clock
    ensures w'.rows[0].signature == Some(Signature(0, nonce))
    ensures w'.recordedAt == w.recordedAt[Signature(0, nonce) := w'.clock]
    ensures w'.chain == w.chain.(broadcast := w.chain.broadcast + {Signature(0, nonce)})
  {
    w' := RecordZero(w, nonce, t);
    w' := Extend(w', Sent(Accepted), t);
  }

  lemma RecordZero(w: World, nonce: nat, t: Timing) returns (w': World)
    requires Reachable(w, t) && w.phase == Preparing(0) && Processes(w, 0) && Signature(0, nonce) !in w.recordedAt
    ensures Reachable(w', t) && w'.phase == Sending(Signature(0, nonce)) && w'.clock == w.clock && w'.chain == w.chain
    ensures 0 in w'.rows && w'.rows[0] == Row(Submitted, Some(Signature(0, nonce)), w'.clock, w'.clock)
    ensures w'.recordedAt == w.recordedAt[Signature(0, nonce) := w'.clock]
  {
    w' := Extend(w, Prepared(Some(nonce)), t);
    w' := Extend(w', Database(w'.clock, Done), t);
  }

  /** Withdrawal 0 was submitted just now with its first signature, which was sent. */
  predicate JustSent(w: World) {
    var s := Signature(0, 1);
    && IsSubmitted(w.rows, 0) && w.rows[0].submittedAt == w.clock && w.rows[0].signature == Some(s)
    && s in w.chain.broadcast && s !in w.chain.landed && s in w.recordedAt && w.recordedAt[s] == w.clock
  }

  lemma ReadUnseen(w: World, readAt: int, t: Timing) returns (w': World)
    requires Reachable(w, t) && w.phase.Idle? && JustSent(w) && w.clock <= readAt
    ensures Reachable(w', t) && w'.phase == Settling([Submission(0, Signature(0, 1), w.clock)], [Unseen], readAt)
    ensures w' == w.(clock := readAt, phase := w'.phase)
  {
    w' := Extend(w, Start, t);
    w' := Extend(w', Listed(Some([0])), t);
    assert Jobs(w.rows, [0]) == [Submission(0, Signature(0, 1), w.clock)];
    w' := Extend(w', StatusesRead(readAt, Some([Unseen])), t);
  }

  lemma ReleaseZero(w: World, submittedAt: int, readAt: int, lookAt: int, t: Timing) returns (w': World)
    requires Reachable(w, t) && w.phase == Settling([Submission(0, Signature(0, 1), submittedAt)], [Unseen], readAt)
    requires IsSubmitted(w.rows, 0) && w.clock <= lookAt <= readAt + t.delay && lookAt + t.skew > submittedAt + EXPIRY
    ensures Reachable(w', t) && w'.phase.Claiming? && w'.recordedAt == w.recordedAt && w'.chain == w.chain
    ensures 0 in w'.rows && w'.rows[0].status == Failed && w'.rows[0].updatedAt == w'.clock
  {
    w' := Extend(w, Proceed(lookAt, lookAt + t.skew), t);
    assert w'.phase.Failing?;
    w' := Extend(w', Database(lookAt, Done), t);
    w' := Extend(w', Proceed(lookAt, lookAt), t);
  }

  /** The read finds nothing, the transaction lands just after, and ten minutes have
      passed by the worker's clock when the loop looks at the entry. */
  lemma ReleaseLanded(w: World, t: Timing) returns (w': World)
    requires Reachable(w, t) && w.phase.Idle? && JustSent(w) && !Fits(t)
    ensures Reachable(w', t) && w'.phase.Claiming? && w'.recordedAt == w.recordedAt
    ensures w'.chain == w.chain.(landed := w.chain.landed[Signature(0, 1) := true])
    ensures 0 in w'.rows && w'.rows[0].status == Failed && w'.rows[0].updatedAt == w'.clock
  {
    var readAt := w.clock + if t.delay + t.skew > EXPIRY then 0 else EXPIRY + 1 - t.delay - t.skew;
    var lookAt := w.clock + if t.skew > EXPIRY then 0 else EXPIRY + 1 - t.skew;
    w' := ReadUnseen(w, readAt, t);
    w' := Extend(w', Land(readAt, Signature(0, 1), true), t);
    w' := ReleaseZero(w', w.clock, readAt, if lookAt < readAt then readAt else lookAt, t);
  }

  lemma Requested(t: Timing) returns (w: World)
    ensures Reachable(w, t) && w == INITIAL.(rows := map[0 := Row(Cooldown, None, 0, 0)], phase := Claiming)
  {
    assert PossibleRun(INITIAL, [], t) && Run(INITIAL, []) == INITIAL;
    w := Extend(INITIAL, Create(0, 0), t);
    w := Extend(w, Start, t);
    w := Extend(w, Listed(Some([])), t);
  }

  lemma LateLandingPaysTwice(t: Timing) returns (w: World)
    requires !Fits(t)
    ensures Reachable(w, t) && !PaidAtMostOnce(w.chain)
  {
    w := Requested(t);
    w := PayOut(w, 1, t);
    w := ReleaseLanded(w, t);
    w := PayOut(w, 2, t);
    w := Extend(w, Land(w.clock, Signature(0, 2), true), t);
    assert Succeeded(w.chain, Signature(0, 1)) && Succeeded(w.chain, Signature(0, 2));
  }

  /** The ten-minute rule pays each withdrawal at most once exactly when a transaction's
      lifetime, the delay of the loop after its read, and the lead of the worker's clock
      over the database's together fit in ten minutes. */
  lemma AtMostOnceExactly(t: Timing)
    ensures (forall w :: Reachable(w, t) ==> PaidAtMostOnce(w.chain)) <==> Fits(t)
  {
    if !Fits(t) {
      var w := LateLandingPaysTwice(t);
    } else {
      forall w | Reachable(w, t) ensures PaidAtMostOnce(w.chain) {
        var events :| PossibleRun(INITIAL, events, t) && Run(INITIAL, events) == w;
        EachPaidAtMostOnce(t, events);
      }
    }
  }
}
