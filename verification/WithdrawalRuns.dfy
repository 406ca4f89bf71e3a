/** `runOnce` of the withdrawal loop as the program executes it, over the table and the
    chain. Each await lets events happen until one answers it; the ghost `phase` is
    where `WithdrawalPayouts` says the loop stands, and the code is proved to be there
    at every await. */
module WithdrawalRuns {
  import opened Options
  import opened WithdrawalPayouts

  /** What the code asks of a node, the database or the clock. */
  datatype Request =
    | AskList | AskStatuses | AskClock | AskPreparation | ClaimJob
    | Fail(id: Id) | Confirm(id: Id) | Record(signature: Signature) | Send(signature: Signature)

  /** How a piece of code ends: the run is over, an exception left it, it runs on, or it
      never resumes because the process or the observation ended. */
  datatype Flow = Over | Raised | Passed | Suspended

  /** At `phase` the program has issued `request`. */
  predicate Issues(phase: Phase, request: Request) {
    match phase
    case Idle => false
    case Listing => request == AskList
    case ReadingStatuses(_) => request == AskStatuses
    case Settling(_, _, _) => request == AskClock
    case Failing(jobs, _, _) => jobs != [] && request == Fail(jobs[0].id)
    case Confirming(jobs, _, _) => jobs != [] && request == Confirm(jobs[0].id)
    case Claiming => request == ClaimJob
    case Preparing(_) => request == AskPreparation
    case Recording(s) => request == Record(s)
    case Sending(s) => request == Send(s)
    case CaughtFailing(id) => request == Fail(id)
  }

  predicate Answers(request: Request, e: Event) {
    match request
    case AskList => e.Listed?
    case AskStatuses => e.StatusesRead?
    case AskClock => e.Proceed?
    case AskPreparation => e.Prepared?
    case ClaimJob => e.Claimed?
    case Send(_) => e.Sent?
    case _ => e.Database?
  }

  /** The request is carried out, as far as the answer to it tells. */
  predicate Reached(e: Event) {
    match e
    case Database(_, reply) => reply.Done? || reply.applied
    case Claimed(_, _, _, _, reply) => reply.Done? || reply.applied
    case Sent(outcome) => !(outcome.Refused? && !outcome.reached)
    case Crash(_, applied) => applied
    case _ => false
  }

  /** The table after a request is carried out at time `now`. */
  function Updated(rows: map<Id, Row>, request: Request, e: Event, now: int): map<Id, Row> {
    match request
    case Fail(id) => MarkFailed(rows, id, now)
    case Confirm(id) => MarkConfirmed(rows, id, now)
    case Record(s) => MarkSubmitted(rows, s, now)
    case ClaimJob => if e.Claimed? then WithdrawalPayouts.ClaimJob(Advance(rows, e.readied, now), e.pick, e.usable, now) else rows
    case _ => rows
  }

  function Transmitted(chain: Chain, request: Request): Chain {
    if request.Send? then chain.(broadcast := chain.broadcast + {request.signature}) else chain
  }

  /** The world after an answer, or after the end of the process. */
  lemma AnswerCarries(w: World, request: Request, e: Event)
    requires Issues(w.phase, request) && (e.Crash? || Answers(request, e))
    ensures Step(w, e).rows == if Reached(e) then Updated(w.rows, request, e, TimeOf(w, e)) else w.rows
    ensures Step(w, e).chain == if Reached(e) then Transmitted(w.chain, request) else w.chain
    ensures e.Crash? ==> Step(w, e).phase == Idle
  {
  }

  /** What else may happen leaves the waiting code where it is. */
  lemma PassesBy(w: World, request: Request, e: Event)
    requires Issues(w.phase, request) && !e.Crash? && !Answers(request, e)
    ensures Step(w, e).phase == w.phase && Step(w, e).recordedAt == w.recordedAt
    ensures !e.Create? && !e.Cancel? ==> Step(w, e).rows == w.rows
    ensures !e.Land? ==> Step(w, e).chain == w.chain
  {
  }

  class WithdrawalServer {
    var rows: map<Id, Row>
    var chain: Chain
    var inbox: seq<Event>
    ghost var recordedAt: map<Signature, int>
    ghost var clock: int
    ghost var phase: Phase
    ghost var past: seq<Event>

    ghost function Contents(): World
      reads this
    {
      World(rows, recordedAt, chain, clock, phase)
    }

    /** All that happened so far is a run of the machine. */
    ghost predicate Valid()
      reads this
    {
      Contents() == Run(INITIAL, past)
    }

    constructor (inbox: seq<Event>)
      ensures Valid() && Contents() == INITIAL && this.inbox == inbox && past == []
    {
      rows, chain := map[], Chain({}, map[]);
      this.inbox := inbox;
      recordedAt, clock, phase, past := map[], 0, Idle, [];
    }

    /** The process has ended, or nothing more happens. */
    ghost predicate Ended()
      reads this
    {
      phase == Idle || inbox == []
    }

    /** Waits at an await. Users, the chain and the clock go on meanwhile, and the
        process may end; `was` is the world at the moment of the answer. */
    method Await(request: Request) returns (reply: Option<Event>, before: map<Id, Row>, ghost was: World)
      requires Valid() && Issues(phase, request)
      modifies this
      ensures Valid() && old(past) <= past
      ensures reply.None? ==> Ended()
      ensures reply.Some? ==>
                && Answers(request, reply.value) && Contents() == Step(was, reply.value)
                && was.phase == old(phase) && was.rows == before
    {
      while inbox != []
        invariant Valid() && old(past) <= past && phase == old(phase)
        decreases |inbox|
      {
        var e := inbox[0];
        inbox := inbox[1..];
        if e.Crash? || Answers(request, e) {
          before, was := rows, Contents();
          Resume(request, e);
          return if e.Crash? then None else Some(e), before, was;
        }
        Pass(request, e);
      }
      return None, rows, Contents();
    }

    /** An event that does not concern the waiting code. */
    method Pass(request: Request, e: Event)
      requires Valid() && Issues(phase, request) && !e.Crash? && !Answers(request, e)
      modifies this`rows, this`chain, this`clock, this`past
      ensures Valid() && past == old(past) + [e] && phase == old(phase)
    {
      PassesBy(Contents(), request, e);
      RunAppend(INITIAL, past, e);
      ghost var next := Step(Contents(), e);
      past, clock := past + [e], next.clock;
      match e {
        case Land(_, s, ok) =>
          chain := chain.(landed := chain.landed[s := ok]);
        case Create(now, id) =>
          if id !in rows {
            rows := rows[id := Row(Cooldown, None, 0, now)];
          }
        case Cancel(now, id) =>
          if id in rows && rows[id].status in {Cooldown, Ready, Status.Failed} {
            rows := rows[id := rows[id].(status := Cancelled, updatedAt := now)];
          }
        case _ =>
      }
    }

    /** The answer to the request, or the end of the process. */
    method Resume(request: Request, e: Event)
      requires Valid() && Issues(phase, request) && (e.Crash? || Answers(request, e))
      modifies this`rows, this`chain, this`recordedAt, this`clock, this`phase, this`past
      ensures Valid() && past == old(past) + [e]
      ensures Contents() == Step(old(Contents()), e) && (e.Crash? ==> phase == Idle)
    {
      AnswerCarries(Contents(), request, e);
      RunAppend(INITIAL, past, e);
      ghost var next := Step(Contents(), e);
      if Reached(e) {
        var now := match e case Database(now, _) => now case Claimed(now, _, _, _, _) => now case Crash(now, _) => now case _ => 0;
        rows, chain := Updated(rows, request, e, now), Transmitted(chain, request);
      }
      past, recordedAt, clock, phase := past + [e], next.recordedAt, next.clock, next.phase;
    }

    /** Where a piece of code may leave the machine. */
    ghost predicate At(flow: Flow)
      reads this
    {
      (flow.Over? ==> phase == Idle) && (flow.Suspended? ==> Ended())
    }

    method RunOnce() returns (flow: Flow)
      requires Valid() && phase.Idle?
      modifies this
      ensures Valid() && old(past) + [Start] <= past
      ensures Contents() == Run(old(Contents()), past[|old(past)|..])
      ensures At(flow) && (flow.Over? || flow.Suspended?)
    {
      flow := Work();
      RunConcat(INITIAL, old(past), past[|old(past)|..]);
      assert old(past) + past[|old(past)|..] == past;
    }

    method Work() returns (flow: Flow)
      requires Valid() && phase.Idle?
      modifies this
      ensures Valid() && old(past) + [Start] <= past
      ensures At(flow) && (flow.Over? || flow.Suspended?)
    {
      RunAppend(INITIAL, past, Start);
      past, phase := past + [Start], Listing;
      var reply, before, was := Await(AskList);
      if reply.None? {
        return Suspended;
      }
      var submitted := reply.value.ids;
      if submitted.None? || !CanList(rows, submitted.value) {
        return Over;
      }
      if submitted.value != [] {
        flow := SettleSubmitted(Jobs(rows, submitted.value));
        if !flow.Passed? {
          return;
        }
      }
      flow := PayOne();
    }

    /** Reads the statuses of the submitted withdrawals and acts on each. */
    method SettleSubmitted(submitted: seq<Submission>) returns (flow: Flow)
      requires Valid() && phase == ReadingStatuses(submitted)
      modifies this
      ensures Valid() && old(past) <= past && At(flow) && !flow.Raised?
      ensures flow.Passed? ==> phase == Claiming
    {
      var reply, before, was := Await(AskStatuses);
      if reply.None? {
        return Suspended;
      }
      var statuses := reply.value.reports;
      if statuses.None? || |statuses.value| != |submitted| {
        return Over;
      }
      ghost var readAt := reply.value.now;
      for index := 0 to |submitted|
        invariant Valid() && old(past) <= past
        invariant phase == Settling(submitted[index..], statuses.value[index..], readAt)
      {
        flow := SettleNext(submitted[index..], statuses.value[index..], readAt);
        if !flow.Passed? {
          return;
        }
      }
      reply, before, was := Await(AskClock);
      if reply.None? {
        return Suspended;
      }
      return Passed;
    }

    /** One round of the loop, for the first entry. */
    method SettleNext(submitted: seq<Submission>, statuses: seq<Report>, ghost readAt: int) returns (flow: Flow)
      requires Valid() && phase == Settling(submitted, statuses, readAt) && submitted != [] && statuses != []
      modifies this
      ensures Valid() && old(past) <= past && At(flow) && !flow.Raised?
      ensures flow.Passed? ==> phase == Settling(submitted[1..], statuses[1..], readAt)
    {
      var reply, before, was := Await(AskClock);
      if reply.None? {
        return Suspended;
      }
      var withdrawal, status := submitted[0], statuses[0];
      if status.Seen? && status.err {
        flow := Update(Fail(withdrawal.id));
      } else if status.Seen? && status.finalized {
        flow := Update(Confirm(withdrawal.id));
      } else if status.Unseen? && reply.value.local - withdrawal.submittedAt > EXPIRY {
        flow := Update(Fail(withdrawal.id));
      } else {
        flow := Passed;
      }
    }

    /** A row update of the settling loop; an exception ends the run, and confirming a
        withdrawal that is neither submitted nor confirmed is one. */
    method Update(request: Request) returns (flow: Flow)
      requires Valid() && Issues(phase, request) && (phase.Failing? || phase.Confirming?) && phase.reports != []
      modifies this
      ensures Valid() && old(past) <= past && At(flow) && (flow.Passed? || flow.Over? || flow.Suspended?)
      ensures flow.Passed? ==> phase == Settling(old(phase).jobs[1..], old(phase).reports[1..], old(phase).readAt)
    {
      var reply, before, was := Await(request);
      if reply.None? {
        return Suspended;
      }
      if reply.value.reply.DbThrew? {
        return Over;
      }
      if request.Confirm? && request.id in before
         && before[request.id].status != Submitted && before[request.id].status != Confirmed {
        return Over;
      }
      return Passed;
    }

    /** Claims one ready withdrawal, signs, records and sends. */
    method PayOne() returns (flow: Flow)
      requires Valid() && phase == Claiming
      modifies this
      ensures Valid() && old(past) <= past && At(flow) && (flow.Over? || flow.Suspended?)
    {
      var reply, before, was := Await(ClaimJob);
      if reply.None? {
        return Suspended;
      }
      var claim := reply.value;
      if claim.reply.DbThrew? || !claim.usable || !CanPick(Advance(before, claim.readied, claim.now), claim.pick) {
        return Over;
      }
      var id := claim.pick.value;
      var submissionRecorded: bool;
      flow, submissionRecorded := Submit(id);
      if flow.Raised? {
        if !submissionRecorded {
          reply, before, was := Await(Fail(id));
          if reply.None? {
            return Suspended;
          }
        }
        return Over;
      }
    }

    /** The try block. An exception after the signature is recorded fails no row. */
    method Submit(id: Id) returns (flow: Flow, submissionRecorded: bool)
      requires Valid() && phase == Preparing(id)
      modifies this
      ensures Valid() && old(past) <= past && At(flow) && !flow.Passed?
      ensures flow.Raised? ==> phase == if submissionRecorded then Idle else CaughtFailing(id)
    {
      submissionRecorded := false;
      var reply, before, was := Await(AskPreparation);
      if reply.None? {
        return Suspended, submissionRecorded;
      }
      if reply.value.nonce.None? {
        return Raised, submissionRecorded;
      }
      var signature := Signature(id, reply.value.nonce.value);
      reply, before, was := Await(Record(signature));
      if reply.None? {
        return Suspended, submissionRecorded;
      }
      if reply.value.reply.DbThrew? {
        return Raised, submissionRecorded;
      }
      submissionRecorded := true;
      reply, before, was := Await(Send(signature));
      if reply.None? {
        return Suspended, submissionRecorded;
      }
      return if reply.value.outcome.Accepted? then Over else Raised, submissionRecorded;
    }

    /** What the machine guarantees, the code guarantees. */
    lemma EachPaidAtMostOnceInCode(t: Timing)
      requires Valid() && PossibleRun(INITIAL, past, t) && Fits(t)
      ensures PaidAtMostOnce(chain) && chain.broadcast <= recordedAt.Keys
    {
      EachPaidAtMostOnce(t, past);
    }
  }
}
