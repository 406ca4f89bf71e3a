/** `charge` and `recoverSubmittedPayment` as the program executes them, await by await,
    over a payment row and the chain. Each await lets events happen until one answers
    it; the ghost `phase` is where `ConfigPayments` says the call stands, and the code
    is proved to be there at every await and to answer what the machine answers. */
module ConfigPaymentCalls {
  import opened Options
  import opened ConfigPayments

  /** What the code asks of a node or of the database at an await. */
  datatype Request =
    | AskStatus | AskPoll | AskHeight | AskRow | AskPreparation
    | Fail | Confirm | Claim | Record(tx: Transaction, validUntil: nat) | Send(tx: Transaction)

  /** How a piece of code ends: it returns from `charge`, throws, runs on, or never
      resumes because the process or the observation ended. */
  datatype Flow = Returned(result: Result) | Raised(already: bool, simulation: bool) | Passed | Suspended

  /** At `phase` the program has issued `request`. */
  predicate Issues(phase: Phase, request: Request) {
    match phase
    case Idle(_) => false
    case Recovering(_) => request == AskStatus
    case RecoverRereading(_) => request == AskStatus
    case Rereading(_) => request == AskStatus
    case CaughtRereading(_) => request == AskStatus
    case Polling(_, _) => request == AskPoll
    case RecoverHeight(_) => request == AskHeight
    case NotClaimed => request == AskRow
    case Catching(_, _) => request == AskRow
    case Preparing => request == AskPreparation
    case RecoverFailing(_) => request == Fail
    case PrepareFailing(_, _) => request == Fail
    case SettlingFailed(_) => request == Fail
    case CaughtFailing => request == Fail
    case RecoverConfirming(_) => request == Confirm
    case SettlingConfirmed(_) => request == Confirm
    case CaughtConfirming(_) => request == Confirm
    case Claiming => request == Claim
    case Recording(tx, validUntil) => request == Record(tx, validUntil)
    case Sending(tx) => request == Send(tx)
    case RecoverSending(p) => p.raw.Some? && request == Send(p.raw.value)
  }

  predicate Answers(request: Request, e: Event) {
    match request
    case AskStatus => e.StatusRead?
    case AskPoll => e.Polled?
    case AskHeight => e.HeightRead?
    case AskRow => e.RowRead?
    case AskPreparation => e.Prepared?
    case Send(_) => e.Sent?
    case _ => e.Database?
  }

  /** The request is carried out, as far as the answer to it tells. */
  predicate Reached(e: Event) {
    match e
    case Database(_, reply) => reply.Done? || reply.applied
    case Sent(outcome) => !(outcome.Refused? && !outcome.reached)
    case Crash(_, applied) => applied
    case _ => false
  }

  function TimeOf(e: Event): int {
    match e
    case Database(now, _) => now
    case Crash(now, _) => now
    case _ => 0
  }

  /** What a request does when it is carried out; the phase of the world plays no part. */
  function Carried(w: World, request: Request, now: int): World {
    match request
    case Fail => SetStatus(w, Failed)
    case Confirm => SetStatus(w, Confirmed)
    case Claim => ConfigPayments.Claim(w, now)
    case Record(tx, validUntil) => ConfigPayments.Record(w, tx, validUntil)
    case Send(tx) => Broadcast(w, tx)
    case _ => w
  }

  /** The world after an answer, or after the end of the process. */
  lemma AnswerCarries(w: World, request: Request, e: Event)
    requires Issues(w.phase, request) && (e.Crash? || Answers(request, e))
    ensures Step(w, e) == (if Reached(e) then Carried(w, request, TimeOf(e)) else w).(phase := Step(w, e).phase)
    ensures e.Crash? ==> Step(w, e).phase == Idle(None)
  {
  }

  /** Anything else, but for the chain, passes the waiting code by. */
  lemma StrayChangesNothing(w: World, request: Request, e: Event)
    requires Issues(w.phase, request) && !e.Crash? && !e.Land? && !Answers(request, e)
    ensures Step(w, e) == w
  {
  }

  lemma EffectOnRow(w: World, chain: Chain, now: int)
    ensures Effect(w.(chain := chain), now).row == Effect(w, now).row
  {
  }

  /** The chain's doings meanwhile change neither row nor where an answer leads. */
  lemma ChainDoesNotMatter(w: World, chain: Chain, e: Event)
    requires !e.Land?
    ensures Step(w.(chain := chain), e).phase == Step(w, e).phase && Step(w.(chain := chain), e).row == Step(w, e).row
  {
    match e
    case Database(now, reply) =>
      EffectOnRow(w, chain, now);
      assert AfterDatabase(w.(chain := chain), now, reply.DbThrew?) == AfterDatabase(w, now, reply.DbThrew?);
    case Sent(_) => EffectOnRow(w, chain, 0);
    case Crash(now, _) => EffectOnRow(w, chain, now);
    case RowRead(ok) => assert AfterRowRead(w.(chain := chain), ok) == AfterRowRead(w, ok);
    case _ =>
  }

  class PaymentServer {
    var row: Option<Row>
    var recorded: set<Signature>
    var chain: Chain
    var inbox: seq<Event>
    ghost var phase: Phase
    ghost var past: seq<Event>

    ghost function Contents(): World
      reads this
    {
      World(row, recorded, chain, phase)
    }

    /** All that happened so far is a run of the machine. */
    ghost predicate Valid()
      reads this
    {
      Contents() == Run(INITIAL, past)
    }

    constructor (inbox: seq<Event>)
      ensures Valid() && Contents() == INITIAL && this.inbox == inbox && past == []
    {
      row, recorded, chain := None, {}, Chain({}, map[]);
      this.inbox := inbox;
      phase, past := Idle(None), [];
    }

    /** The process has ended, or nothing more happens. */
    ghost predicate Ended()
      reads this
    {
      phase == Idle(None) || inbox == []
    }

    method CarryOut(request: Request, now: int)
      modifies this`row, this`recorded, this`chain
      ensures Contents() == Carried(old(Contents()), request, now)
    {
      var w := Carried(World(row, recorded, chain, Idle(None)), request, now);
      row, recorded, chain := w.row, w.recorded, w.chain;
    }

    /** Waits at an await; the chain goes on meanwhile, and the process may end. */
    method Await(request: Request) returns (reply: Option<Event>)
      requires Valid() && Issues(phase, request)
      modifies this
      ensures Valid() && old(past) <= past
      ensures reply.None? ==> Ended()
      ensures reply.Some? ==>
                && Answers(request, reply.value)
                && phase == Step(old(Contents()), reply.value).phase && row == Step(old(Contents()), reply.value).row
    {
      while inbox != []
        invariant Valid() && old(past) <= past
        invariant Contents() == old(Contents()).(chain := chain)
        decreases |inbox|
      {
        var e := inbox[0];
        inbox := inbox[1..];
        if e.Crash? || Answers(request, e) {
          ChainDoesNotMatter(old(Contents()), chain, e);
          Resume(request, e);
          return if e.Crash? then None else Some(e);
        }
        Pass(request, e);
      }
      return None;
    }

    /** An event that does not concern the waiting code. */
    method Pass(request: Request, e: Event)
      requires Valid() && Issues(phase, request) && !e.Crash? && !Answers(request, e)
      modifies this`chain, this`past
      ensures Valid() && past == old(past) + [e]
    {
      RunAppend(INITIAL, past, e);
      past := past + [e];
      if e.Land? {
        chain := chain.(landed := chain.landed[e.signature := e.ok]);
      } else {
        StrayChangesNothing(Contents(), request, e);
      }
    }

    /** The answer to the request, or the end of the process. */
    method Resume(request: Request, e: Event)
      requires Valid() && Issues(phase, request) && (e.Crash? || Answers(request, e))
      modifies this`row, this`recorded, this`chain, this`phase, this`past
      ensures Valid() && past == old(past) + [e]
      ensures Contents() == Step(old(Contents()), e) && (e.Crash? ==> phase == Idle(None))
    {
      AnswerCarries(Contents(), request, e);
      RunAppend(INITIAL, past, e);
      ghost var next := Step(Contents(), e).phase;
      past := past + [e];
      if Reached(e) {
        CarryOut(request, TimeOf(e));
      }
      phase := next;
    }

    /** Where a piece of code may leave the machine. */
    ghost predicate At(flow: Flow)
      reads this
    {
      match flow
      case Returned(result) => phase == Return(result)
      case Raised(already, simulation) => phase == Catching(already, simulation)
      case Passed => true
      case Suspended => Ended()
    }

    method ReadStatus() returns (reading: Option<Reading>)
      requires Valid() && Issues(phase, AskStatus)
      modifies this
      ensures Valid() && old(past) <= past
      ensures reading.None? ==> Ended()
      ensures reading.Some? ==> phase == AfterReading(old(phase), reading.value) && row == old(row)
    {
      var reply := Await(AskStatus);
      if reply.None? {
        return None;
      }
      reading := Some(ReadSignatureStatus(reply.value.recent, reply.value.history, reply.value.archive));
    }

    /** A row update other than a claim; `Passed` when it went through. */
    method Update(request: Request) returns (flow: Flow)
      requires Valid() && Issues(phase, request) && AwaitsDatabase(phase) && !phase.Claiming?
      modifies this
      ensures Valid() && old(past) <= past
      ensures match flow
              case Passed => phase == AfterDatabase(old(Contents()), 0, false)
              case Raised(already, simulation) => phase == AfterDatabase(old(Contents()), 0, true) && !already && !simulation
              case Suspended => Ended()
              case Returned(_) => false
    {
      var reply := Await(request);
      if reply.None? {
        return Suspended;
      }
      flow := if reply.value.reply.DbThrew? then Raised(false, false) else Passed;
    }

    /** Fails or confirms the row and returns from the call; here an exception leaves it. */
    method Settle(request: Request, result: Result) returns (flow: Flow)
      requires Valid() && Issues(phase, request) && AwaitsDatabase(phase) && !phase.Claiming?
      requires AfterDatabase(Contents(), 0, false) == Return(result) && AfterDatabase(Contents(), 0, true) == Return(Threw)
      modifies this
      ensures Valid() && old(past) <= past && At(flow) && (flow.Returned? || flow.Suspended?)
    {
      flow := Update(request);
      if flow.Raised? {
        flow := Returned(Threw);
      } else if flow.Passed? {
        flow := Returned(result);
      }
    }

    /** The same inside the try block, where an exception is caught. */
    method SettleGuarded(request: Request, result: Result) returns (flow: Flow)
      requires Valid() && Issues(phase, request) && AwaitsDatabase(phase) && !phase.Claiming?
      requires AfterDatabase(Contents(), 0, false) == Return(result)
      requires AfterDatabase(Contents(), 0, true) == Catching(false, false)
      modifies this
      ensures Valid() && old(past) <= past && At(flow) && !flow.Passed?
    {
      flow := Update(request);
      if flow.Passed? {
        flow := Returned(result);
      }
    }

    method RecoverSubmittedPayment(payment: Row) returns (flow: Flow)
      requires Valid() && phase == Opening(payment)
      modifies this
      ensures Valid() && old(past) <= past && At(flow) && !flow.Raised?
      ensures flow.Passed? ==> phase == Claiming && row == old(row)
    {
      if payment.status == Confirmed && payment.signature.Some? {
        return Returned(Paid(payment.signature.value));
      }
      if payment.status != Submitted || payment.signature.None? {
        return Passed;
      }
      var signature := payment.signature.value;
      var reading := ReadStatus();
      if reading.None? {
        return Suspended;
      }
      if reading.value.ReadThrew? {
        return Returned(Threw);
      }
      var status := reading.value.report;
      if status.Seen? && status.err {
        flow := Settle(Fail, ChargeFailed);
        return;
      }
      if status.Seen? && status.finalized {
        flow := Settle(Confirm, Paid(signature));
        return;
      }
      if payment.raw.Some? && payment.lastValid.Some? {
        var reply := Await(AskHeight);
        if reply.None? {
          return Suspended;
        }
        if reply.value.height.None? {
          return Returned(Threw);
        }
        if reply.value.height.value <= payment.lastValid.value {
          flow := Rebroadcast(payment, signature);
          return;
        }
      }
      return Returned(InProgress);
    }

    method Rebroadcast(payment: Row, signature: Signature) returns (flow: Flow)
      requires Valid() && phase == RecoverSending(payment) && payment.raw.Some? && payment.signature == Some(signature)
      modifies this
      ensures Valid() && old(past) <= past && At(flow) && (flow.Returned? || flow.Suspended?)
    {
      var reply := Await(Send(payment.raw.value));
      if reply.None? {
        return Suspended;
      }
      if reply.value.outcome.Refused? {
        if !reply.value.outcome.already {
          return Returned(Threw);
        }
        flow := RecheckStatus(payment, signature);
        return;
      }
      return Returned(InProgress);
    }

    /** The node says the rebroadcast transaction has been processed before. */
    method RecheckStatus(payment: Row, signature: Signature) returns (flow: Flow)
      requires Valid() && phase == RecoverRereading(payment) && payment.signature == Some(signature)
      modifies this
      ensures Valid() && old(past) <= past && At(flow) && (flow.Returned? || flow.Suspended?)
    {
      var reading := ReadStatus();
      if reading.None? {
        return Suspended;
      }
      if reading.value.ReadThrew? {
        return Returned(Threw);
      }
      var status := reading.value.report;
      if status.Seen? && status.err {
        flow := Settle(Fail, ChargeFailed);
      } else if status.Seen? && status.finalized {
        flow := Settle(Confirm, Paid(signature));
      } else {
        flow := Returned(InProgress);
      }
    }

    /** A call arrives. */
    method Arrive(arrival: Arrival)
      requires Valid() && phase.Idle?
      modifies this`row, this`phase, this`past
      ensures Valid() && past == old(past) + [Event.Charge(arrival)] && phase == Step(old(Contents()), Event.Charge(arrival)).phase
      ensures row == if arrival.WithKey? && old(row).None? then Some(FRESH) else old(row)
    {
      RunAppend(INITIAL, past, Event.Charge(arrival));
      past := past + [Event.Charge(arrival)];
      match arrival {
        case WithoutKey => phase := Return(KeyMissing);
        case OtherParameters => phase := Return(Threw);
        case WithKey =>
          row := Some(if row.Some? then row.value else FRESH);
          phase := Opening(row.value);
      }
    }

    /** Every call ends where the machine says, with the machine's answer: its part of the
        history is a run of the machine from what the call found. */
    method Charge(arrival: Arrival) returns (flow: Flow)
      requires Valid() && phase.Idle?
      modifies this
      ensures Valid() && old(past) + [Event.Charge(arrival)] <= past
      ensures Contents() == Run(old(Contents()), past[|old(past)|..])
      ensures At(flow) && (flow.Returned? || flow.Suspended?)
    {
      flow := Answer(arrival);
      RunConcat(INITIAL, old(past), past[|old(past)|..]);
      assert old(past) + past[|old(past)|..] == past;
    }

    method Answer(arrival: Arrival) returns (flow: Flow)
      requires Valid() && phase.Idle?
      modifies this
      ensures Valid() && old(past) + [Event.Charge(arrival)] <= past
      ensures At(flow) && (flow.Returned? || flow.Suspended?)
    {
      Arrive(arrival);
      if arrival.WithoutKey? {
        return Returned(KeyMissing);
      }
      if arrival.OtherParameters? {
        return Returned(Threw);
      }
      var payment := row;
      flow := RecoverSubmittedPayment(payment.value);
      if flow.Passed? {
        flow := ClaimAndPay(payment.value);
      }
    }

    /** The rest of the call, when nothing of an earlier one had to be recovered. */
    method ClaimAndPay(payment: Row) returns (flow: Flow)
      requires Valid() && phase == Claiming && row == Some(payment)
      modifies this
      ensures Valid() && old(past) <= past && At(flow) && (flow.Returned? || flow.Suspended?)
    {
      var reply := Await(Claim);
      if reply.None? {
        return Suspended;
      }
      if reply.value.reply.DbThrew? {
        return Returned(Threw);
      }
      if !Claimable(payment, reply.value.now) {
        flow := NotMine();
        return;
      }
      flow := Attempt();
      if flow.Raised? {
        flow := Catch(flow.already, flow.simulation);
      }
    }

    /** Another call has claimed the payment, or it is settled. */
    method NotMine() returns (flow: Flow)
      requires Valid() && phase == NotClaimed
      modifies this
      ensures Valid() && old(past) <= past && At(flow) && (flow.Returned? || flow.Suspended?)
    {
      var reply := Await(AskRow);
      if reply.None? {
        return Suspended;
      }
      if !reply.value.ok {
        return Returned(Threw);
      }
      if row.Some? && row.value.status == Confirmed && row.value.signature.Some? {
        return Returned(Paid(row.value.signature.value));
      }
      return Returned(InProgress);
    }

    /** From the claimed row to the answer, or to an exception. */
    method Attempt() returns (flow: Flow)
      requires Valid() && phase == Preparing
      modifies this
      ensures Valid() && old(past) <= past && At(flow) && !flow.Passed?
    {
      var reply := Await(AskPreparation);
      if reply.None? {
        return Suspended;
      }
      match reply.value.preparation {
        case PreparationThrew =>
          flow := Raised(false, false);
        case UnsupportedKey =>
          flow := Settle(Fail, ChargeFailed);
        case TreasuryNotInitialized =>
          flow := SettleGuarded(Fail, TreasuryUnavailable);
        case FundsMissing =>
          flow := SettleGuarded(Fail, InsufficientFunds);
        case Signed(tx, validUntil) =>
          flow := Submit(tx, validUntil);
      }
    }

    /** Recorded first, then sent. */
    method Submit(tx: Transaction, validUntil: nat) returns (flow: Flow)
      requires Valid() && phase == Recording(tx, validUntil)
      modifies this
      ensures Valid() && old(past) <= past && At(flow) && !flow.Passed?
    {
      flow := Update(Record(tx, validUntil));
      if !flow.Passed? {
        return;
      }
      var reply := Await(Send(tx));
      if reply.None? {
        return Suspended;
      }
      match reply.value.outcome {
        case OtherSignature => return Raised(false, false);
        case Refused(already, simulation, _) => return Raised(already, simulation);
        case Accepted => flow := AwaitFinality(tx);
      }
    }

    /** From the accepted transaction to the answer. */
    method AwaitFinality(tx: Transaction) returns (flow: Flow)
      requires Valid() && phase == Polling(tx, POLL_ATTEMPTS)
      modifies this
      ensures Valid() && old(past) <= past && At(flow) && !flow.Passed?
    {
      var latest: Option<Report>;
      flow, latest := WaitForFinalized(tx);
      if !flow.Passed? {
        return;
      }
      if latest.None? {
        var reading := ReadStatus();
        if reading.None? {
          return Suspended;
        }
        if reading.value.ReadThrew? {
          return Raised(false, false);
        }
        latest := Some(reading.value.report);
      }
      if latest.value.Seen? && latest.value.err {
        flow := SettleGuarded(Fail, ChargeFailed);
        return;
      }
      if !(latest.value.Seen? && latest.value.finalized) {
        return Returned(InProgress);
      }
      flow := SettleGuarded(Confirm, Paid(tx.signature));
    }

    /** Polls up to twenty times; no report when none of them decided. */
    method WaitForFinalized(tx: Transaction) returns (flow: Flow, latest: Option<Report>)
      requires Valid() && phase == Polling(tx, POLL_ATTEMPTS)
      modifies this
      ensures Valid() && old(past) <= past && At(flow) && !flow.Returned?
      ensures flow.Passed? && latest.Some? ==>
                && latest.value.Seen? && (latest.value.err || latest.value.finalized)
                && phase == if latest.value.err then SettlingFailed(tx) else SettlingConfirmed(tx)
      ensures flow.Passed? && latest.None? ==> phase == Rereading(tx)
    {
      for attempt := 0 to POLL_ATTEMPTS
        invariant Valid() && old(past) <= past
        invariant phase == if attempt < POLL_ATTEMPTS then Polling(tx, POLL_ATTEMPTS - attempt) else Rereading(tx)
      {
        var reply := Await(AskPoll);
        if reply.None? {
          return Suspended, None;
        }
        if reply.value.report.None? {
          return Raised(false, false), None;
        }
        var report := reply.value.report.value;
        if report.Seen? && (report.err || report.finalized) {
          return Passed, Some(report);
        }
      }
      return Passed, None;
    }

    /** The catch block. */
    method Catch(already: bool, simulation: bool) returns (flow: Flow)
      requires Valid() && phase == Catching(already, simulation)
      modifies this
      ensures Valid() && old(past) <= past && At(flow) && (flow.Returned? || flow.Suspended?)
    {
      var reply := Await(AskRow);
      if reply.None? {
        return Suspended;
      }
      if !reply.value.ok {
        return Returned(Threw);
      }
      var submitted := row.Some? && row.value.status == Submitted;
      if submitted && already {
        if row.value.signature.None? {
          return Returned(InProgress);
        }
        flow := AlreadyProcessed(row.value.signature.value);
      } else if !submitted || simulation {
        flow := Settle(Fail, ChargeFailed);
      } else {
        flow := Returned(Threw);
      }
    }

    /** The node says the transaction has been processed before: its status decides. */
    method AlreadyProcessed(signature: Signature) returns (flow: Flow)
      requires Valid() && phase == CaughtRereading(signature)
      modifies this
      ensures Valid() && old(past) <= past && At(flow) && (flow.Returned? || flow.Suspended?)
    {
      var reading := ReadStatus();
      if reading.None? {
        return Suspended;
      }
      if reading.value.ReadThrew? {
        return Returned(Threw);
      }
      var status := reading.value.report;
      if status.Seen? && status.err {
        flow := Settle(Fail, ChargeFailed);
      } else if status.Seen? && status.finalized {
        flow := Settle(Confirm, Paid(signature));
      } else {
        flow := Returned(InProgress);
      }
    }

    /** What the machine guarantees, the code guarantees: `past` is any sequence of
        events the environment may produce. */
    lemma AtMostOneTransferInCode()
      requires Valid() && PossibleRun(INITIAL, past, false)
      ensures AtMostOnePaid(chain) && chain.broadcast <= recorded
    {
      AtMostOneTransfer(past);
    }
  }
}
