/** What a call of `charge` answers and what it leaves, reply by reply: every branch from
    its arrival to its answer, said of the row it found, the replies it got and the row,
    the broadcast signatures and the answer at its end.  Whatever the chain does between
    the replies plays no part. */
module ConfigPaymentAnswers {
  import opened Options
  import opened ConfigPayments

  // ---- Replies, and the chain in between ----

  /** The events of a run that are not the chain's. */
  function Replies(events: seq<Event>): seq<Event> {
    if events == [] then []
    else if events[0].Land? then Replies(events[1..])
    else [events[0]] + Replies(events[1..])
  }

  /** Alike but for what has landed. */
  predicate Alike(w: World, w': World) {
    w.row == w'.row && w.phase == w'.phase && w.recorded == w'.recorded && w.chain.broadcast == w'.chain.broadcast
  }

  lemma AlikeStep(w: World, w': World, e: Event)
    requires Alike(w, w') && !e.Land?
    ensures Alike(Step(w, e), Step(w', e))
  {
    match e
    case Database(now, _) => AlikeEffect(w, w', now);
    case Sent(_) => AlikeEffect(w, w', 0);
    case Crash(now, _) => AlikeEffect(w, w', now);
    case _ =>
  }

  lemma AlikeEffect(w: World, w': World, now: int)
    requires Alike(w, w')
    ensures Alike(Effect(w, now), Effect(w', now))
  {
  }

  lemma {:induction false} AlikeRun(w: World, w': World, events: seq<Event>)
    requires Alike(w, w')
    ensures Alike(Run(w, events), Run(w', Replies(events)))
    decreases |events|
  {
    if events != [] {
      if events[0].Land? {
        AlikeRun(Step(w, events[0]), w', events[1..]);
      } else {
        AlikeStep(w, w', events[0]);
        AlikeRun(Step(w, events[0]), Step(w', events[0]), events[1..]);
        RunFirst(w', events[0], Replies(events[1..]));
      }
    }
  }

  lemma RunFirst(w: World, e: Event, rest: seq<Event>)
    ensures Run(w, [e] + rest) == Run(Step(w, e), rest)
  {
    assert ([e] + rest)[1..] == rest;
  }

  lemma RunOne(w: World, e: Event)
    ensures Run(w, [e]) == Step(w, e)
  {
    RunFirst(w, e, []);
    assert [e] + [] == [e];
  }

  lemma RunTwo(w: World, a: Event, b: Event)
    ensures Run(w, [a, b]) == Step(Step(w, a), b)
  {
    RunFirst(w, a, [b]);
    RunOne(Step(w, a), b);
    assert [a] + [b] == [a, b];
  }

  lemma RunThree(w: World, a: Event, b: Event, c: Event)
    ensures Run(w, [a, b, c]) == Step(Step(Step(w, a), b), c)
  {
    RunFirst(w, a, [b, c]);
    RunTwo(Step(w, a), b, c);
    assert [a] + [b, c] == [a, b, c];
  }

  /** The call has answered, leaving this row and having sent just these bytes. */
  predicate Ends(w: World, events: seq<Event>, row: Row, sent: set<Signature>, answer: Result) {
    var w' := Run(w, events);
    w'.row == Some(row) && w'.phase == Idle(Some(answer)) && w'.chain.broadcast == w.chain.broadcast + sent
  }

  lemma EndsBy(w: World, events: seq<Event>, row: Row, sent: set<Signature>, answer: Result)
    requires Ends(w, Replies(events), row, sent, answer)
    ensures Ends(w, events, row, sent, answer)
  {
    AlikeRun(w, w, events);
  }

  // ---- Status reports ----

  /** A status read that came through with this report. */
  predicate Reads(e: Event, report: Report) {
    e.StatusRead? && ReadSignatureStatus(e.recent, e.history, e.archive) == Known(report)
  }

  predicate FailsToRead(e: Event) { e.StatusRead? && ReadSignatureStatus(e.recent, e.history, e.archive).ReadThrew? }

  predicate Decides(report: Report) { report.Seen? && (report.err || report.finalized) }

  /** An error fails the payment, finality without one confirms it. */
  function Settled(row: Row, report: Report): Row
    requires Decides(report)
  {
    row.(status := if report.err then Status.Failed else Confirmed)
  }

  function Verdict(s: Signature, report: Report): Result
    requires Decides(report)
  {
    if report.err then ChargeFailed else Paid(s)
  }

  // ---- Arrival ----

  /** Without a key, or with other parameters than before, nothing happens; a confirmed
      payment is answered at once. */
  lemma ArrivalAnswers(w: World, row: Row, events: seq<Event>)
    requires w.phase.Idle? && w.row == Some(row)
    ensures Replies(events) == [Charge(WithoutKey)] ==> Ends(w, events, row, {}, KeyMissing)
    ensures Replies(events) == [Charge(OtherParameters)] ==> Ends(w, events, row, {}, Threw)
    ensures Replies(events) == [Charge(WithKey)] && row.status == Confirmed && row.signature.Some? ==>
              Ends(w, events, row, {}, Paid(row.signature.value))
  {
    AlikeRun(w, w, events);
    if |Replies(events)| == 1 {
      RunOne(w, Replies(events)[0]);
      assert Replies(events) == [Replies(events)[0]];
    }
  }

  // ---- Recovering a submitted payment ----

  predicate Waiting(w: World, row: Row, s: Signature) {
    w.phase.Idle? && w.row == Some(row) && row.status == Submitted && row.signature == Some(s)
  }

  /** A decisive status settles the row and is answered; a failed read or update throws. */
  lemma RecoverySettles(w: World, row: Row, s: Signature, status: Event, report: Report, now: int, reply: DbReply, events: seq<Event>)
    requires Waiting(w, row, s) && Reads(status, report) && Decides(report)
    requires Replies(events) == [Charge(WithKey), status, Database(now, reply)]
    ensures Ends(w, events, if reply == DbThrew(false) then row else Settled(row, report), {},
                 if reply.Done? then Verdict(s, report) else Threw)
  {
    RunThree(w, Charge(WithKey), status, Database(now, reply));
    EndsBy(w, events, if reply == DbThrew(false) then row else Settled(row, report), {},
           if reply.Done? then Verdict(s, report) else Threw);
  }

  lemma RecoveryReadFails(w: World, row: Row, s: Signature, status: Event, events: seq<Event>)
    requires Waiting(w, row, s) && FailsToRead(status) && Replies(events) == [Charge(WithKey), status]
    ensures Ends(w, events, row, {}, Threw)
  {
    RunTwo(w, Charge(WithKey), status);
    EndsBy(w, events, row, {}, Threw);
  }

  /** Undecided, and nothing recorded to send again: still in progress. */
  lemma RecoveryWaits(w: World, row: Row, s: Signature, status: Event, report: Report, events: seq<Event>)
    requires Waiting(w, row, s) && Reads(status, report) && !Decides(report)
    requires (row.raw.None? || row.lastValid.None?) && Replies(events) == [Charge(WithKey), status]
    ensures Ends(w, events, row, {}, InProgress)
  {
    RunTwo(w, Charge(WithKey), status);
    EndsBy(w, events, row, {}, InProgress);
  }

  predicate Resendable(row: Row) { row.raw.Some? && row.lastValid.Some? }

  /** Undecided, with the recorded bytes: the block height decides.  Past the last valid
      one the call answers, and up to it it goes on to send. */
  lemma RecoveryByHeight(w: World, row: Row, s: Signature, status: Event, report: Report, height: Option<nat>, events: seq<Event>)
    requires Waiting(w, row, s) && Reads(status, report) && !Decides(report) && Resendable(row)
    requires Replies(events) == [Charge(WithKey), status, HeightRead(height)]
    ensures height.None? ==> Ends(w, events, row, {}, Threw)
    ensures height.Some? && height.value > row.lastValid.value ==> Ends(w, events, row, {}, InProgress)
    ensures height.Some? && height.value <= row.lastValid.value ==>
              !Run(w, events).phase.Idle? && Run(w, events).row == Some(row) && Run(w, events).chain.broadcast == w.chain.broadcast
  {
    RunThree(w, Charge(WithKey), status, HeightRead(height));
    AlikeRun(w, w, events);
  }

  /** The call has come to the rebroadcast. */
  function Resending(w: World, row: Row): World { w.(row := Some(row), phase := RecoverSending(row)) }

  lemma ComesToResend(w: World, row: Row, s: Signature, status: Event, report: Report, height: nat)
    requires Waiting(w, row, s) && Reads(status, report) && !Decides(report) && Resendable(row) && height <= row.lastValid.value
    ensures Run(w, [Charge(WithKey), status, HeightRead(Some(height))]) == Resending(w, row)
  {
    RunThree(w, Charge(WithKey), status, HeightRead(Some(height)));
  }

  /** Sending again: exactly when the height is not past the last valid one. The answer is
      that the payment is in progress, or the error unless it says the transaction was
      processed before. */
  lemma RecoveryResends(w: World, row: Row, s: Signature, status: Event, report: Report, height: nat, outcome: SendReply, events: seq<Event>)
    requires Waiting(w, row, s) && Reads(status, report) && !Decides(report) && Resendable(row) && height <= row.lastValid.value
    requires Replies(events) == [Charge(WithKey), status, HeightRead(Some(height))] + [Sent(outcome)]
    requires outcome.Refused? ==> !outcome.already
    ensures Ends(w, events, row, if outcome.Refused? && !outcome.reached then {} else {row.raw.value.signature},
                 if outcome.Refused? then Threw else InProgress)
  {
    ComesToResend(w, row, s, status, report, height);
    RunConcat(w, [Charge(WithKey), status, HeightRead(Some(height))], [Sent(outcome)]);
    RunOne(Resending(w, row), Sent(outcome));
    EndsBy(w, events, row, if outcome.Refused? && !outcome.reached then {} else {row.raw.value.signature},
           if outcome.Refused? then Threw else InProgress);
  }

  /** Processed before: the status is read again, and settles the row if it decides. */
  lemma RecoveryRereads(w: World, row: Row, s: Signature, status: Event, report: Report, height: nat, outcome: SendReply,
                        again: Event, report': Report, now: int, events: seq<Event>)
    requires Waiting(w, row, s) && Reads(status, report) && !Decides(report) && Resendable(row) && height <= row.lastValid.value
    requires outcome.Refused? && outcome.already && Reads(again, report')
    requires Replies(events) == [Charge(WithKey), status, HeightRead(Some(height))]
                                + if Decides(report') then [Sent(outcome), again, Database(now, Done)] else [Sent(outcome), again]
    ensures var sent := if outcome.reached then {row.raw.value.signature} else {};
            if Decides(report') then Ends(w, events, Settled(row, report'), sent, Verdict(s, report'))
            else Ends(w, events, row, sent, InProgress)
  {
    ComesToResend(w, row, s, status, report, height);
    var sent := if outcome.reached then {row.raw.value.signature} else {};
    if Decides(report') {
      RunConcat(w, [Charge(WithKey), status, HeightRead(Some(height))], [Sent(outcome), again, Database(now, Done)]);
      RunThree(Resending(w, row), Sent(outcome), again, Database(now, Done));
      EndsBy(w, events, Settled(row, report'), sent, Verdict(s, report'));
    } else {
      RunConcat(w, [Charge(WithKey), status, HeightRead(Some(height))], [Sent(outcome), again]);
      RunTwo(Resending(w, row), Sent(outcome), again);
      EndsBy(w, events, row, sent, InProgress);
    }
  }

  // ---- A fresh charge ----

  /** The row a new call finds or makes, when there is nothing to recover. */
  predicate Open(w: World, row: Row) {
    && w.phase.Idle? && (w.row == Some(row) || (w.row.None? && row == FRESH))
    && !(row.signature.Some? && (row.status == Confirmed || row.status == Submitted))
  }

  /** Pending, failed, or claimed more than two minutes before. */
  predicate MayClaim(row: Row, now: int) {
    row.status == Pending || row.status == Status.Failed || (row.status == Processing && now - row.startedAt > 2 * 60 * 1000)
  }

  function ClaimedRow(row: Row, now: int): Row { row.(status := Processing, startedAt := now) }

  /** Claimed by another call, or not to be claimed: in progress, and nothing changes. */
  lemma NotClaimedWaits(w: World, row: Row, now: int, ok: bool, events: seq<Event>)
    requires Open(w, row) && !MayClaim(row, now)
    requires Replies(events) == [Charge(WithKey), Database(now, Done), RowRead(ok)]
    ensures Ends(w, events, row, {}, if ok then InProgress else Threw)
  {
    RunThree(w, Charge(WithKey), Database(now, Done), RowRead(ok));
    EndsBy(w, events, row, {}, if ok then InProgress else Threw);
  }

  lemma ClaimFails(w: World, row: Row, now: int, applied: bool, events: seq<Event>)
    requires Open(w, row) && Replies(events) == [Charge(WithKey), Database(now, DbThrew(applied))]
    ensures Ends(w, events, if applied && MayClaim(row, now) then ClaimedRow(row, now) else row, {}, Threw)
  {
    RunTwo(w, Charge(WithKey), Database(now, DbThrew(applied)));
    EndsBy(w, events, if applied && MayClaim(row, now) then ClaimedRow(row, now) else row, {}, Threw);
  }

  function Claims(now: int): seq<Event> { [Charge(WithKey), Database(now, Done)] }

  lemma ComesToPrepare(w: World, row: Row, now: int)
    requires Open(w, row) && MayClaim(row, now)
    ensures Run(w, Claims(now)) == w.(row := Some(ClaimedRow(row, now)), phase := Preparing)
  {
    RunTwo(w, Charge(WithKey), Database(now, Done));
  }

  /** What is answered when preparing finds that the payment cannot be made. */
  function Refusal(p: Preparation): Option<Result> {
    match p
    case UnsupportedKey => Some(ChargeFailed)
    case TreasuryNotInitialized => Some(TreasuryUnavailable)
    case FundsMissing => Some(InsufficientFunds)
    case _ => None
  }

  /** It fails the row and says why. */
  lemma PreparationRefuses(w: World, row: Row, now: int, p: Preparation, settledAt: int, events: seq<Event>)
    requires Open(w, row) && MayClaim(row, now) && Refusal(p).Some?
    requires Replies(events) == Claims(now) + [Prepared(p), Database(settledAt, Done)]
    ensures Ends(w, events, ClaimedRow(row, now).(status := Status.Failed), {}, Refusal(p).value)
  {
    ComesToPrepare(w, row, now);
    RunConcat(w, Claims(now), [Prepared(p), Database(settledAt, Done)]);
    RunTwo(Run(w, Claims(now)), Prepared(p), Database(settledAt, Done));
    EndsBy(w, events, ClaimedRow(row, now).(status := Status.Failed), {}, Refusal(p).value);
  }

  /** An exception before anything is recorded fails the row. */
  lemma PreparationThrows(w: World, row: Row, now: int, settledAt: int, events: seq<Event>)
    requires Open(w, row) && MayClaim(row, now)
    requires Replies(events) == Claims(now) + [Prepared(PreparationThrew), RowRead(true), Database(settledAt, Done)]
    ensures Ends(w, events, ClaimedRow(row, now).(status := Status.Failed), {}, ChargeFailed)
  {
    ComesToPrepare(w, row, now);
    RunConcat(w, Claims(now), [Prepared(PreparationThrew), RowRead(true), Database(settledAt, Done)]);
    RunThree(Run(w, Claims(now)), Prepared(PreparationThrew), RowRead(true), Database(settledAt, Done));
    EndsBy(w, events, ClaimedRow(row, now).(status := Status.Failed), {}, ChargeFailed);
  }

  function SubmittedRow(row: Row, now: int, tx: Transaction, validUntil: nat): Row {
    Row(Submitted, Some(tx.signature), Some(tx), Some(validUntil), now)
  }

  function Signs(now: int, tx: Transaction, validUntil: nat): seq<Event> { Claims(now) + [Prepared(Signed(tx, validUntil))] }

  lemma ComesToRecord(w: World, row: Row, now: int, tx: Transaction, validUntil: nat)
    requires Open(w, row) && MayClaim(row, now)
    ensures Run(w, Signs(now, tx, validUntil)) == w.(row := Some(ClaimedRow(row, now)), phase := Recording(tx, validUntil))
  {
    ComesToPrepare(w, row, now);
    RunConcat(w, Claims(now), [Prepared(Signed(tx, validUntil))]);
    RunOne(Run(w, Claims(now)), Prepared(Signed(tx, validUntil)));
  }

  /** The signature could not be recorded: the row is failed, and nothing is sent. */
  lemma RecordingFails(w: World, row: Row, now: int, tx: Transaction, validUntil: nat, at: int, settledAt: int, events: seq<Event>)
    requires Open(w, row) && MayClaim(row, now)
    requires Replies(events) == Signs(now, tx, validUntil) + [Database(at, DbThrew(false)), RowRead(true), Database(settledAt, Done)]
    ensures Ends(w, events, ClaimedRow(row, now).(status := Status.Failed), {}, ChargeFailed)
  {
    ComesToRecord(w, row, now, tx, validUntil);
    RunConcat(w, Signs(now, tx, validUntil), [Database(at, DbThrew(false)), RowRead(true), Database(settledAt, Done)]);
    RunThree(Run(w, Signs(now, tx, validUntil)), Database(at, DbThrew(false)), RowRead(true), Database(settledAt, Done));
    EndsBy(w, events, ClaimedRow(row, now).(status := Status.Failed), {}, ChargeFailed);
  }

  /** Recorded, but the reply lost: nothing is sent, and the row waits with the bytes. */
  lemma RecordingReplyLost(w: World, row: Row, now: int, tx: Transaction, validUntil: nat, at: int, events: seq<Event>)
    requires Open(w, row) && MayClaim(row, now)
    requires Replies(events) == Signs(now, tx, validUntil) + [Database(at, DbThrew(true)), RowRead(true)]
    ensures Ends(w, events, SubmittedRow(row, now, tx, validUntil), {}, Threw)
  {
    ComesToRecord(w, row, now, tx, validUntil);
    RunConcat(w, Signs(now, tx, validUntil), [Database(at, DbThrew(true)), RowRead(true)]);
    RunTwo(Run(w, Signs(now, tx, validUntil)), Database(at, DbThrew(true)), RowRead(true));
    EndsBy(w, events, SubmittedRow(row, now, tx, validUntil), {}, Threw);
  }

  // ---- Sent ----

  /** Claimed, signed, recorded, sent with this outcome. */
  function Sends(now: int, tx: Transaction, validUntil: nat, at: int, outcome: SendReply): seq<Event> {
    Signs(now, tx, validUntil) + [Database(at, Done), Sent(outcome)]
  }

  function Out(tx: Transaction, outcome: SendReply): set<Signature> {
    if outcome.Refused? && !outcome.reached then {} else {tx.signature}
  }

  /** The world once the transaction is recorded and sent. */
  function AfterSending(w: World, row: Row, now: int, tx: Transaction, validUntil: nat, outcome: SendReply, phase: Phase): World {
    World(Some(SubmittedRow(row, now, tx, validUntil)), w.recorded + {tx.signature},
          w.chain.(broadcast := w.chain.broadcast + Out(tx, outcome)), phase)
  }

  lemma ComesToSend(w: World, row: Row, now: int, tx: Transaction, validUntil: nat, at: int, outcome: SendReply)
    requires Open(w, row) && MayClaim(row, now)
    ensures var w' := Run(w, Sends(now, tx, validUntil, at, outcome));
            && w' == AfterSending(w, row, now, tx, validUntil, outcome, w'.phase)
            && w'.phase == match outcome
                           case Accepted => Polling(tx, 20)
                           case OtherSignature => Catching(false, false)
                           case Refused(already, simulation, _) => Catching(already, simulation)
  {
    ComesToRecord(w, row, now, tx, validUntil);
    RunConcat(w, Signs(now, tx, validUntil), [Database(at, Done), Sent(outcome)]);
    RunTwo(Run(w, Signs(now, tx, validUntil)), Database(at, Done), Sent(outcome));
    assert Out(tx, outcome) == {} ==> w.chain.broadcast + {} == w.chain.broadcast;
  }

  /** A refusal that says neither, or another signature: the error goes to the caller, and
      the row waits for recovery. */
  lemma SendingThrows(w: World, row: Row, now: int, tx: Transaction, validUntil: nat, at: int, outcome: SendReply, events: seq<Event>)
    requires Open(w, row) && MayClaim(row, now)
    requires outcome.OtherSignature? || (outcome.Refused? && !outcome.already && !outcome.simulation)
    requires Replies(events) == Sends(now, tx, validUntil, at, outcome) + [RowRead(true)]
    ensures Ends(w, events, SubmittedRow(row, now, tx, validUntil), Out(tx, outcome), Threw)
  {
    ComesToSend(w, row, now, tx, validUntil, at, outcome);
    RunConcat(w, Sends(now, tx, validUntil, at, outcome), [RowRead(true)]);
    RunOne(Run(w, Sends(now, tx, validUntil, at, outcome)), RowRead(true));
    EndsBy(w, events, SubmittedRow(row, now, tx, validUntil), Out(tx, outcome), Threw);
  }

  /** A failed simulation fails the row. */
  lemma SimulationFails(w: World, row: Row, now: int, tx: Transaction, validUntil: nat, at: int, outcome: SendReply, settledAt: int, events: seq<Event>)
    requires Open(w, row) && MayClaim(row, now) && outcome.Refused? && !outcome.already && outcome.simulation
    requires Replies(events) == Sends(now, tx, validUntil, at, outcome) + [RowRead(true), Database(settledAt, Done)]
    ensures Ends(w, events, SubmittedRow(row, now, tx, validUntil).(status := Status.Failed), Out(tx, outcome), ChargeFailed)
  {
    ComesToSend(w, row, now, tx, validUntil, at, outcome);
    RunConcat(w, Sends(now, tx, validUntil, at, outcome), [RowRead(true), Database(settledAt, Done)]);
    RunTwo(Run(w, Sends(now, tx, validUntil, at, outcome)), RowRead(true), Database(settledAt, Done));
    EndsBy(w, events, SubmittedRow(row, now, tx, validUntil).(status := Status.Failed), Out(tx, outcome), ChargeFailed);
  }

  /** Processed before: the status decides. */
  lemma AlreadySent(w: World, row: Row, now: int, tx: Transaction, validUntil: nat, at: int, outcome: SendReply,
                    status: Event, report: Report, settledAt: int, events: seq<Event>)
    requires Open(w, row) && MayClaim(row, now) && outcome.Refused? && outcome.already && Reads(status, report)
    requires Replies(events) == Sends(now, tx, validUntil, at, outcome)
                                + if Decides(report) then [RowRead(true), status, Database(settledAt, Done)] else [RowRead(true), status]
    ensures var waiting := SubmittedRow(row, now, tx, validUntil);
            if Decides(report) then Ends(w, events, Settled(waiting, report), Out(tx, outcome), Verdict(tx.signature, report))
            else Ends(w, events, waiting, Out(tx, outcome), InProgress)
  {
    var sent := Run(w, Sends(now, tx, validUntil, at, outcome));
    ComesToSend(w, row, now, tx, validUntil, at, outcome);
    if Decides(report) {
      RunConcat(w, Sends(now, tx, validUntil, at, outcome), [RowRead(true), status, Database(settledAt, Done)]);
      RereadSettles(sent, tx.signature, outcome.simulation, status, report, settledAt);
      EndsBy(w, events, Settled(SubmittedRow(row, now, tx, validUntil), report), Out(tx, outcome), Verdict(tx.signature, report));
    } else {
      RunConcat(w, Sends(now, tx, validUntil, at, outcome), [RowRead(true), status]);
      RunTwo(sent, RowRead(true), status);
      EndsBy(w, events, SubmittedRow(row, now, tx, validUntil), Out(tx, outcome), InProgress);
    }
  }

  lemma RereadSettles(w: World, s: Signature, simulation: bool, status: Event, report: Report, now: int)
    requires w.phase == Catching(true, simulation) && RowIs(w, Submitted, Some(s)) && Reads(status, report) && Decides(report)
    ensures Run(w, [RowRead(true), status, Database(now, Done)]) ==
            w.(row := Some(Settled(w.row.value, report)), phase := Idle(Some(Verdict(s, report))))
  {
    RunThree(w, RowRead(true), status, Database(now, Done));
    RereadGoesOn(w, s, simulation, status, report);
  }

  lemma RereadGoesOn(w: World, s: Signature, simulation: bool, status: Event, report: Report)
    requires w.phase == Catching(true, simulation) && RowIs(w, Submitted, Some(s)) && Reads(status, report) && Decides(report)
    ensures Step(Step(w, RowRead(true)), status) == w.(phase := if report.err then CaughtFailing else CaughtConfirming(s))
  {
    assert Step(w, RowRead(true)) == w.(phase := CaughtRereading(s));
  }

  // ---- Waiting for finality ----

  ghost predicate Undecided(reports: seq<Report>) { forall i :: 0 <= i < |reports| ==> !Decides(reports[i]) }

  function Polls(reports: seq<Report>): seq<Event> {
    if reports == [] then [] else [Polled(Some(reports[0]))] + Polls(reports[1..])
  }

  /** Undecided polls, up to the number that is left, change nothing but that number. */
  lemma {:induction false} PollsPass(w: World, tx: Transaction, left: nat, reports: seq<Report>)
    requires w.phase == Polling(tx, left) && |reports| <= left && left > 0 && Undecided(reports)
    ensures Run(w, Polls(reports)) == w.(phase := if |reports| == left then Rereading(tx) else Polling(tx, left - |reports|))
    decreases |reports|
  {
    if reports != [] {
      var e := Polled(Some(reports[0]));
      assert !Decides(reports[0]);
      RunFirst(w, e, Polls(reports[1..]));
      if left > 1 {
        PollsPass(Step(w, e), tx, left - 1, reports[1..]);
      } else {
        assert reports[1..] == [];
      }
    }
  }

  lemma ComesToPoll(w: World, row: Row, now: int, tx: Transaction, validUntil: nat, at: int, reports: seq<Report>)
    requires Open(w, row) && MayClaim(row, now) && |reports| <= 20 && Undecided(reports)
    ensures Run(w, Sends(now, tx, validUntil, at, Accepted) + Polls(reports)) ==
            AfterSending(w, row, now, tx, validUntil, Accepted, if |reports| == 20 then Rereading(tx) else Polling(tx, 20 - |reports|))
  {
    ComesToSend(w, row, now, tx, validUntil, at, Accepted);
    RunConcat(w, Sends(now, tx, validUntil, at, Accepted), Polls(reports));
    PollsPass(Run(w, Sends(now, tx, validUntil, at, Accepted)), tx, 20, reports);
  }

  /** Accepted, and one of the first twenty polls decides: the row is settled by it. */
  lemma PollSettles(w: World, row: Row, now: int, tx: Transaction, validUntil: nat, at: int, reports: seq<Report>, last: Report,
                    settledAt: int, events: seq<Event>)
    requires Open(w, row) && MayClaim(row, now) && |reports| < 20 && Undecided(reports) && Decides(last)
    requires Replies(events) == Sends(now, tx, validUntil, at, Accepted) + Polls(reports) + [Polled(Some(last)), Database(settledAt, Done)]
    ensures Ends(w, events, Settled(SubmittedRow(row, now, tx, validUntil), last), {tx.signature}, Verdict(tx.signature, last))
  {
    var polled := Sends(now, tx, validUntil, at, Accepted) + Polls(reports);
    ComesToPoll(w, row, now, tx, validUntil, at, reports);
    RunConcat(w, polled, [Polled(Some(last)), Database(settledAt, Done)]);
    RunTwo(Run(w, polled), Polled(Some(last)), Database(settledAt, Done));
    EndsBy(w, events, Settled(SubmittedRow(row, now, tx, validUntil), last), {tx.signature}, Verdict(tx.signature, last));
  }

  /** The settling update throws. If it was not carried out the row waits; if it was, the
      catch block fails the row, whatever was reported. */
  lemma SettlingThrows(w: World, row: Row, now: int, tx: Transaction, validUntil: nat, at: int, reports: seq<Report>, last: Report,
                       settledAt: int, applied: bool, later: int, events: seq<Event>)
    requires Open(w, row) && MayClaim(row, now) && |reports| < 20 && Undecided(reports) && Decides(last)
    requires Replies(events) == Sends(now, tx, validUntil, at, Accepted) + Polls(reports)
                                + [Polled(Some(last)), Database(settledAt, DbThrew(applied))]
                                + if applied then [RowRead(true), Database(later, Done)] else [RowRead(true)]
    ensures var waiting := SubmittedRow(row, now, tx, validUntil);
            if applied then Ends(w, events, waiting.(status := Status.Failed), {tx.signature}, ChargeFailed)
            else Ends(w, events, waiting, {tx.signature}, Threw)
  {
    var thrown := Sends(now, tx, validUntil, at, Accepted) + Polls(reports) + [Polled(Some(last)), Database(settledAt, DbThrew(applied))];
    var waiting := SubmittedRow(row, now, tx, validUntil);
    ComesToCatch(w, row, now, tx, validUntil, at, reports, last, settledAt, applied);
    if applied {
      RunConcat(w, thrown, [RowRead(true), Database(later, Done)]);
      RunTwo(Run(w, thrown), RowRead(true), Database(later, Done));
      EndsBy(w, events, waiting.(status := Status.Failed), {tx.signature}, ChargeFailed);
    } else {
      RunConcat(w, thrown, [RowRead(true)]);
      RunOne(Run(w, thrown), RowRead(true));
      EndsBy(w, events, waiting, {tx.signature}, Threw);
    }
  }

  lemma ComesToCatch(w: World, row: Row, now: int, tx: Transaction, validUntil: nat, at: int, reports: seq<Report>, last: Report,
                     settledAt: int, applied: bool)
    requires Open(w, row) && MayClaim(row, now) && |reports| < 20 && Undecided(reports) && Decides(last)
    ensures var waiting := SubmittedRow(row, now, tx, validUntil);
            Run(w, Sends(now, tx, validUntil, at, Accepted) + Polls(reports) + [Polled(Some(last)), Database(settledAt, DbThrew(applied))]) ==
            AfterSending(w, row, now, tx, validUntil, Accepted, Catching(false, false)).(
              row := Some(if applied then Settled(waiting, last) else waiting))
  {
    var polled := Sends(now, tx, validUntil, at, Accepted) + Polls(reports);
    ComesToPoll(w, row, now, tx, validUntil, at, reports);
    RunConcat(w, polled, [Polled(Some(last)), Database(settledAt, DbThrew(applied))]);
    RunTwo(Run(w, polled), Polled(Some(last)), Database(settledAt, DbThrew(applied)));
  }

  /** Twenty undecided polls: the full status read decides, or the payment stays in progress. */
  lemma StatusSettles(w: World, row: Row, now: int, tx: Transaction, validUntil: nat, at: int, reports: seq<Report>,
                      status: Event, report: Report, settledAt: int, events: seq<Event>)
    requires Open(w, row) && MayClaim(row, now) && |reports| == 20 && Undecided(reports) && Reads(status, report)
    requires Replies(events) == Sends(now, tx, validUntil, at, Accepted) + Polls(reports)
                                + if Decides(report) then [status, Database(settledAt, Done)] else [status]
    ensures var waiting := SubmittedRow(row, now, tx, validUntil);
            if Decides(report) then Ends(w, events, Settled(waiting, report), {tx.signature}, Verdict(tx.signature, report))
            else Ends(w, events, waiting, {tx.signature}, InProgress)
  {
    var polled := Sends(now, tx, validUntil, at, Accepted) + Polls(reports);
    ComesToPoll(w, row, now, tx, validUntil, at, reports);
    if Decides(report) {
      RunConcat(w, polled, [status, Database(settledAt, Done)]);
      RunTwo(Run(w, polled), status, Database(settledAt, Done));
      EndsBy(w, events, Settled(SubmittedRow(row, now, tx, validUntil), report), {tx.signature}, Verdict(tx.signature, report));
    } else {
      RunConcat(w, polled, [status]);
      RunOne(Run(w, polled), status);
      EndsBy(w, events, SubmittedRow(row, now, tx, validUntil), {tx.signature}, InProgress);
    }
  }

  /** A poll or a status read that throws: the error goes to the caller, and the row waits. */
  lemma WaitingThrows(w: World, row: Row, now: int, tx: Transaction, validUntil: nat, at: int, reports: seq<Report>, failure: Event, events: seq<Event>)
    requires Open(w, row) && MayClaim(row, now) && |reports| <= 20 && Undecided(reports)
    requires if |reports| < 20 then failure == Polled(None) else FailsToRead(failure)
    requires Replies(events) == Sends(now, tx, validUntil, at, Accepted) + Polls(reports) + [failure, RowRead(true)]
    ensures Ends(w, events, SubmittedRow(row, now, tx, validUntil), {tx.signature}, Threw)
  {
    var polled := Sends(now, tx, validUntil, at, Accepted) + Polls(reports);
    ComesToPoll(w, row, now, tx, validUntil, at, reports);
    RunConcat(w, polled, [failure, RowRead(true)]);
    RunTwo(Run(w, polled), failure, RowRead(true));
    EndsBy(w, events, SubmittedRow(row, now, tx, validUntil), {tx.signature}, Threw);
  }
}
