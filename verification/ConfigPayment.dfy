/** Charging a custodial wallet for one config: `charge` and `recoverSubmittedPayment`
    for one payment id, with the row updates the repository issues.  A call is a
    coroutine, so it is cut at each `await`: `Phase` says what the call in progress is
    waiting for, an event delivers the reply (or ends the process, or lets the chain
    act), and `Step` runs the code up to the next `await`. */
module ConfigPayments {
  import opened Options

  type Signature = nat

  /** A signed transaction: its bytes determine its signature. */
  datatype Transaction = Transaction(signature: Signature)

  datatype Status = Pending | Processing | Submitted | Confirmed | Failed

  datatype Row = Row(
    status: Status, signature: Option<Signature>, raw: Option<Transaction>,
    lastValid: Option<nat>, startedAt: int)

  const FRESH := Row(Pending, None, None, None, 0)

  /** `landed` maps a signature to whether its transfer succeeded; once a signature has
      landed nothing about it changes. */
  datatype Chain = Chain(broadcast: set<Signature>, landed: map<Signature, bool>)

  datatype Result =
    | Paid(signature: Signature)
    | InsufficientFunds | TreasuryUnavailable | InProgress | ChargeFailed | Threw
    | KeyMissing   // also answered as failed, before the row is looked at

  datatype Phase =
    | Idle(last: Option<Result>)
    // recoverSubmittedPayment, with the row it was given
    | Recovering(payment: Row)
    | RecoverFailing(payment: Row)
    | RecoverConfirming(payment: Row)
    | RecoverHeight(payment: Row)
    | RecoverSending(payment: Row)
    | RecoverRereading(payment: Row)
    // charge
    | Claiming
    | NotClaimed
    | Preparing
    | PrepareFailing(result: Result, guarded: bool)
    | Recording(tx: Transaction, validUntil: nat)
    | Sending(tx: Transaction)
    | Polling(tx: Transaction, attempts: nat)
    | Rereading(tx: Transaction)
    | SettlingFailed(tx: Transaction)
    | SettlingConfirmed(tx: Transaction)
    // the catch block
    | Catching(already: bool, simulation: bool)
    | CaughtRereading(signature: Signature)
    | CaughtFailing
    | CaughtConfirming(signature: Signature)

  /** `recorded` collects every signature ever written to the row. */
  datatype World = World(row: Option<Row>, recorded: set<Signature>, chain: Chain, phase: Phase)

  const INITIAL := World(None, {}, Chain({}, map[]), Idle(None))
  const POLL_ATTEMPTS := 20
  const CLAIM_TIMEOUT := 120_000

  // ---- Replies of the RPC nodes and the database ----

  datatype Report = Unseen | Seen(err: bool, finalized: bool)

  datatype RpcReply = Reply(report: Report) | HistoryUnavailable | RpcThrew

  datatype Reading = Known(report: Report) | ReadThrew

  /** Recent statuses, then the node's history, then the archive if there is one; a
      node without history counts as not having seen the signature. */
  function ReadSignatureStatus(recent: RpcReply, history: RpcReply, archive: Option<RpcReply>): Reading {
    if !recent.Reply? then ReadThrew
    else if recent.report.Seen? then Known(recent.report)
    else if history.RpcThrew? then ReadThrew
    else if history.Reply? && history.report.Seen? then Known(history.report)
    else match archive
      case None => Known(Unseen)
      case Some(RpcThrew) => ReadThrew
      case Some(HistoryUnavailable) => Known(Unseen)
      case Some(Reply(report)) => Known(report)
  }

  /** A status is the report of the first node asked that has seen the signature, it counts
      as unseen only if no node that answered has seen it, and the read throws when a node
      it needs fails. */
  lemma StatusIsSomeNodes(recent: RpcReply, history: RpcReply, archive: Option<RpcReply>)
    ensures var reading := ReadSignatureStatus(recent, history, archive);
            && (reading.Known? && reading.report.Seen? ==>
                  recent == Reply(reading.report) || history == Reply(reading.report) || archive == Some(Reply(reading.report)))
            && (reading == Known(Unseen) <==>
                  && recent == Reply(Unseen)
                  && (history == Reply(Unseen) || history.HistoryUnavailable?)
                  && (archive.None? || archive.value == Reply(Unseen) || archive.value.HistoryUnavailable?))
            && (recent.Reply? && recent.report.Seen? ==> reading == Known(recent.report))
            && (recent == Reply(Unseen) && history.Reply? && history.report.Seen? ==> reading == Known(history.report))
            && (reading.ReadThrew? <==>
                  || !recent.Reply?
                  || (recent == Reply(Unseen) && history.RpcThrew?)
                  || (recent == Reply(Unseen) && (history == Reply(Unseen) || history.HistoryUnavailable?) && archive == Some(RpcThrew)))
  {
  }

  datatype DbReply = Done | DbThrew(applied: bool)

  /** `Refused` carries what its error says, and whether the bytes got out regardless. */
  datatype SendReply = Accepted | OtherSignature | Refused(already: bool, simulation: bool, reached: bool)

  datatype Preparation =
    | PreparationThrew | UnsupportedKey | TreasuryNotInitialized | FundsMissing
    | Signed(tx: Transaction, validUntil: nat)

  /** How a call arrives: with the wallet's key on record or not, and with the parameters
      the payment id was first used with or others. */
  datatype Arrival = WithKey | WithoutKey | OtherParameters

  datatype Event =
    | Charge(arrival: Arrival)
    | StatusRead(recent: RpcReply, history: RpcReply, archive: Option<RpcReply>)
    | Polled(report: Option<Report>)              // None: the poll threw
    | HeightRead(height: Option<nat>)
    | Database(now: int, reply: DbReply)
    | RowRead(ok: bool)
    | Sent(outcome: SendReply)
    | Prepared(preparation: Preparation)
    | Crash(now: int, applied: bool)              // the process ends, its pending request done or not
    | Land(signature: Signature, ok: bool)        // the chain executes a broadcast transaction

  // ---- The row updates of the repository ----

  predicate Claimable(row: Row, now: int) {
    || row.status == Pending || row.status == Failed
    || (row.status == Processing && row.startedAt < now - CLAIM_TIMEOUT)
  }

  function SetStatus(w: World, status: Status): World {
    if w.row.Some? then w.(row := Some(w.row.value.(status := status))) else w
  }

  function Claim(w: World, now: int): World {
    if w.row.Some? && Claimable(w.row.value, now)
    then w.(row := Some(w.row.value.(status := Processing, startedAt := now))) else w
  }

  function Record(w: World, tx: Transaction, validUntil: nat): World {
    if w.row.Some? then
      w.(row := Some(w.row.value.(status := Submitted, signature := Some(tx.signature), raw := Some(tx), lastValid := Some(validUntil))),
         recorded := w.recorded + {tx.signature})
    else w
  }

  function Broadcast(w: World, tx: Transaction): World {
    w.(chain := w.chain.(broadcast := w.chain.broadcast + {tx.signature}))
  }

  /** What the request being awaited does when it is carried out. */
  function Effect(w: World, now: int): World {
    match w.phase
    case RecoverFailing(_) => SetStatus(w, Failed)
    case PrepareFailing(_, _) => SetStatus(w, Failed)
    case SettlingFailed(_) => SetStatus(w, Failed)
    case CaughtFailing => SetStatus(w, Failed)
    case RecoverConfirming(_) => SetStatus(w, Confirmed)
    case SettlingConfirmed(_) => SetStatus(w, Confirmed)
    case CaughtConfirming(_) => SetStatus(w, Confirmed)
    case Claiming => Claim(w, now)
    case Recording(tx, validUntil) => Record(w, tx, validUntil)
    case Sending(tx) => Broadcast(w, tx)
    case RecoverSending(payment) => if payment.raw.Some? then Broadcast(w, payment.raw.value) else w
    case _ => w
  }

  // ---- The code between two awaits ----

  function Return(r: Result): Phase { Idle(Some(r)) }

  /** Where `recoverSubmittedPayment` takes a call, from the row it read. */
  function Opening(payment: Row): Phase {
    if payment.status == Confirmed && payment.signature.Some? then Return(Paid(payment.signature.value))
    else if payment.status == Submitted && payment.signature.Some? then Recovering(payment)
    else Claiming
  }

  function Begin(w: World): World {
    var payment := if w.row.Some? then w.row.value else FRESH;
    w.(row := Some(payment), phase := Opening(payment))
  }

  function AfterReading(phase: Phase, reading: Reading): Phase {
    var err := reading.Known? && reading.report.Seen? && reading.report.err;
    var finalized := reading.Known? && reading.report.Seen? && reading.report.finalized;
    match phase
    case Recovering(p) =>
      if reading.ReadThrew? then Return(Threw)
      else if err then RecoverFailing(p)
      else if finalized then RecoverConfirming(p)
      else if p.raw.Some? && p.lastValid.Some? then RecoverHeight(p)
      else Return(InProgress)
    case RecoverRereading(p) =>
      if reading.ReadThrew? then Return(Threw)
      else if err then RecoverFailing(p)
      else if finalized then RecoverConfirming(p)
      else Return(InProgress)
    case Rereading(tx) =>
      if reading.ReadThrew? then Catching(false, false)
      else if err then SettlingFailed(tx)
      else if finalized then SettlingConfirmed(tx)
      else Return(InProgress)
    case CaughtRereading(signature) =>
      if reading.ReadThrew? then Return(Threw)
      else if err then CaughtFailing
      else if finalized then CaughtConfirming(signature)
      else Return(InProgress)
    case _ => phase
  }

  function AfterPoll(phase: Phase, report: Option<Report>): Phase {
    if !phase.Polling? then phase
    else match report
      case None => Catching(false, false)
      case Some(r) =>
        if r.Seen? && r.err then SettlingFailed(phase.tx)
        else if r.Seen? && r.finalized then SettlingConfirmed(phase.tx)
        else if phase.attempts > 1 then Polling(phase.tx, phase.attempts - 1)
        else Rereading(phase.tx)
  }

  function AfterHeight(phase: Phase, height: Option<nat>): Phase {
    if !phase.RecoverHeight? then phase
    else match height
      case None => Return(Threw)
      case Some(h) =>
        if phase.payment.lastValid.Some? && h <= phase.payment.lastValid.value
        then RecoverSending(phase.payment) else Return(InProgress)
  }

  /** `w` is the world the statement was issued in. */
  function AfterDatabase(w: World, now: int, threw: bool): Phase {
    match w.phase
    case RecoverFailing(_) => Return(if threw then Threw else ChargeFailed)
    case RecoverConfirming(p) => Return(if threw || p.signature.None? then Threw else Paid(p.signature.value))
    case Claiming =>
      if threw then Return(Threw)
      else if w.row.Some? && Claimable(w.row.value, now) then Preparing else NotClaimed
    case PrepareFailing(result, guarded) =>
      if !threw then Return(result) else if guarded then Catching(false, false) else Return(Threw)
    case Recording(tx, _) => if threw then Catching(false, false) else Sending(tx)
    case SettlingFailed(_) => if threw then Catching(false, false) else Return(ChargeFailed)
    case SettlingConfirmed(tx) => if threw then Catching(false, false) else Return(Paid(tx.signature))
    case CaughtFailing => Return(if threw then Threw else ChargeFailed)
    case CaughtConfirming(signature) => Return(if threw then Threw else Paid(signature))
    case _ => w.phase
  }

  function AfterRowRead(w: World, ok: bool): Phase {
    var submitted := w.row.Some? && w.row.value.status == Submitted;
    match w.phase
    case NotClaimed =>
      if !ok then Return(Threw)
      else if w.row.Some? && w.row.value.status == Confirmed && w.row.value.signature.Some?
      then Return(Paid(w.row.value.signature.value))
      else Return(InProgress)
    case Catching(already, simulation) =>
      if !ok then Return(Threw)
      else if submitted && already then
        if w.row.value.signature.Some? then CaughtRereading(w.row.value.signature.value) else Return(InProgress)
      else if submitted && simulation then CaughtFailing
      else if !submitted then CaughtFailing
      else Return(Threw)
    case _ => w.phase
  }

  function AfterSend(phase: Phase, reply: SendReply): Phase {
    match phase
    case RecoverSending(p) =>
      if !reply.Refused? then Return(InProgress)
      else if reply.already then RecoverRereading(p) else Return(Threw)
    case Sending(tx) =>
      (match reply
       case Accepted => Polling(tx, POLL_ATTEMPTS)
       case OtherSignature => Catching(false, false)
       case Refused(already, simulation, _) => Catching(already, simulation))
    case _ => phase
  }

  function AfterPreparation(phase: Phase, p: Preparation): Phase {
    if !phase.Preparing? then phase
    else match p
      case PreparationThrew => Catching(false, false)
      case UnsupportedKey => PrepareFailing(ChargeFailed, false)
      case TreasuryNotInitialized => PrepareFailing(TreasuryUnavailable, true)
      case FundsMissing => PrepareFailing(InsufficientFunds, true)
      case Signed(tx, validUntil) => Recording(tx, validUntil)
  }

  predicate AwaitsDatabase(phase: Phase) {
    || phase.RecoverFailing? || phase.RecoverConfirming? || phase.Claiming? || phase.PrepareFailing? || phase.Recording?
    || phase.SettlingFailed? || phase.SettlingConfirmed? || phase.CaughtFailing? || phase.CaughtConfirming?
  }

  predicate AwaitsSend(phase: Phase) { phase.Sending? || phase.RecoverSending? }

  function Step(w: World, e: Event): World {
    match e
    case Charge(arrival) =>
      if !w.phase.Idle? then w
      else (match arrival
            case WithKey => Begin(w)
            case WithoutKey => w.(phase := Return(KeyMissing))
            case OtherParameters => w.(phase := Return(Threw)))
    case StatusRead(recent, history, archive) =>
      w.(phase := AfterReading(w.phase, ReadSignatureStatus(recent, history, archive)))
    case Polled(report) => w.(phase := AfterPoll(w.phase, report))
    case HeightRead(height) => w.(phase := AfterHeight(w.phase, height))
    case Database(now, reply) =>
      if !AwaitsDatabase(w.phase) then w
      else (if reply.Done? || reply.applied then Effect(w, now) else w).(phase := AfterDatabase(w, now, reply.DbThrew?))
    case RowRead(ok) => w.(phase := AfterRowRead(w, ok))
    case Sent(outcome) =>
      if !AwaitsSend(w.phase) then w
      else (if outcome.Refused? && !outcome.reached then w else Effect(w, 0)).(phase := AfterSend(w.phase, outcome))
    case Prepared(p) => w.(phase := AfterPreparation(w.phase, p))
    case Crash(now, applied) => (if applied then Effect(w, now) else w).(phase := Idle(None))
    case Land(signature, ok) => w.(chain := w.chain.(landed := w.chain.landed[signature := ok]))
  }

  // ---- What the environment is assumed to do ----

  predicate Succeeded(chain: Chain, s: Signature) { s in chain.landed && chain.landed[s] }

  predicate Dead(chain: Chain, s: Signature) { s in chain.landed && !chain.landed[s] }

  /** A report of an error, or of finality without one, is final and true. */
  predicate Truthful(chain: Chain, s: Signature, report: Report) {
    report.Seen? ==> (report.err ==> Dead(chain, s)) && (report.finalized && !report.err ==> Succeeded(chain, s))
  }

  predicate TruthfulReply(chain: Chain, s: Signature, reply: RpcReply) {
    reply.Reply? ==> Truthful(chain, s, reply.report)
  }

  /** The signature a status request asks about. */
  function Asked(phase: Phase): Option<Signature> {
    match phase
    case Recovering(p) => p.signature
    case RecoverRereading(p) => p.signature
    case Rereading(tx) => Some(tx.signature)
    case Polling(tx, _) => Some(tx.signature)
    case CaughtRereading(signature) => Some(signature)
    case _ => None
  }

  /** Only what was broadcast lands, once; reports are true; a failed preflight
      simulation broadcasts nothing.  `mayLoseConfirm` allows the one reply the code
      does not survive: the row update that confirms a payment inside the try block is
      carried out, and the database connection fails before saying so. */
  predicate Possible(w: World, e: Event, mayLoseConfirm: bool) {
    match e
    case StatusRead(recent, history, archive) =>
      Asked(w.phase).Some? ==>
        && TruthfulReply(w.chain, Asked(w.phase).value, recent)
        && TruthfulReply(w.chain, Asked(w.phase).value, history)
        && (archive.Some? ==> TruthfulReply(w.chain, Asked(w.phase).value, archive.value))
    case Polled(report) =>
      Asked(w.phase).Some? && report.Some? ==> Truthful(w.chain, Asked(w.phase).value, report.value)
    case Database(_, reply) => w.phase.SettlingConfirmed? && !mayLoseConfirm ==> reply != DbThrew(true)
    case Sent(outcome) => outcome.Refused? && outcome.simulation && !outcome.already ==> !outcome.reached
    case Land(signature, _) => signature in w.chain.broadcast && signature !in w.chain.landed
    case _ => true
  }

  ghost predicate PossibleRun(w: World, events: seq<Event>, mayLoseConfirm: bool)
    decreases |events|
  {
    events != [] ==>
      Possible(w, events[0], mayLoseConfirm) && PossibleRun(Step(w, events[0]), events[1..], mayLoseConfirm)
  }

  function Run(w: World, events: seq<Event>): World
    decreases |events|
  {
    if events == [] then w else Run(Step(w, events[0]), events[1..])
  }

  lemma {:induction false} RunAppend(w: World, events: seq<Event>, e: Event)
    ensures Run(w, events + [e]) == Step(Run(w, events), e)
    decreases |events|
  {
    var all := events + [e];
    if events == [] {
      assert all[1..] == [];
    } else {
      RunAppend(Step(w, events[0]), events[1..], e);
      assert all[0] == events[0] && all[1..] == events[1..] + [e];
    }
  }

  lemma {:induction false} RunConcat(w: World, a: seq<Event>, b: seq<Event>)
    ensures Run(w, a + b) == Run(Run(w, a), b)
    decreases |a|
  {
    if a == [] {
      assert a + b == b;
    } else {
      RunConcat(Step(w, a[0]), a[1..], b);
      assert (a + b)[1..] == a[1..] + b;
    }
  }

  // ---- The invariant ----

  /** A transfer that has succeeded or still may. */
  predicate Live(chain: Chain, s: Signature) { s in chain.broadcast && !Dead(chain, s) }

  ghost predicate NoneLive(chain: Chain) { forall s :: s in chain.broadcast ==> Dead(chain, s) }

  predicate RowIs(w: World, status: Status, s: Option<Signature>) {
    w.row.Some? && w.row.value.status == status && s.Some? && w.row.value.signature == s
  }

  /** The answers that tell of a failure of this payment, after its row was looked at. */
  predicate NotPaid(r: Result) { r.ChargeFailed? || r.InsufficientFunds? || r.TreasuryUnavailable? }

  ghost predicate PhaseInv(w: World) {
    match w.phase
    case Idle(last) =>
      && (last.Some? && last.value.Paid? ==> Succeeded(w.chain, last.value.signature))
      && (last.Some? && NotPaid(last.value) ==> NoneLive(w.chain))
    case Recovering(p) => w.row == Some(p) && RowIs(w, Submitted, p.signature)
    case RecoverHeight(p) => w.row == Some(p) && RowIs(w, Submitted, p.signature)
    case RecoverSending(p) => w.row == Some(p) && RowIs(w, Submitted, p.signature)
    case RecoverRereading(p) => w.row == Some(p) && RowIs(w, Submitted, p.signature)
    case RecoverFailing(p) => RowIs(w, Submitted, p.signature) && Dead(w.chain, p.signature.value)
    case RecoverConfirming(p) => RowIs(w, Submitted, p.signature) && Succeeded(w.chain, p.signature.value)
    case Claiming => w.row.Some? && NoneLive(w.chain)
    case NotClaimed => true
    case Preparing => w.row.Some? && w.row.value.status == Processing
    case PrepareFailing(result, _) => w.row.Some? && w.row.value.status == Processing && !result.Paid?
    case Recording(_, _) => w.row.Some? && w.row.value.status == Processing
    case Sending(tx) => RowIs(w, Submitted, Some(tx.signature)) && NoneLive(w.chain)
    case Polling(tx, _) => RowIs(w, Submitted, Some(tx.signature))
    case Rereading(tx) => RowIs(w, Submitted, Some(tx.signature))
    case SettlingFailed(tx) => RowIs(w, Submitted, Some(tx.signature)) && Dead(w.chain, tx.signature)
    case SettlingConfirmed(tx) => RowIs(w, Submitted, Some(tx.signature)) && Succeeded(w.chain, tx.signature)
    case Catching(already, simulation) =>
      && (w.row.Some? ==> w.row.value.status != Confirmed)
      && (simulation && !already ==> NoneLive(w.chain))
    case CaughtRereading(signature) => RowIs(w, Submitted, Some(signature))
    case CaughtFailing => NoneLive(w.chain)
    case CaughtConfirming(signature) => RowIs(w, Submitted, Some(signature)) && Succeeded(w.chain, signature)
  }

  ghost predicate RowInv(w: World) {
    && (w.row.None? ==> w.chain.broadcast == {})
    && (w.row.Some? ==>
          var row := w.row.value;
          && (row.status == Submitted || row.status == Confirmed ==> row.signature.Some? && row.signature.value in w.recorded)
          && (row.status == Confirmed ==> Succeeded(w.chain, row.signature.value))
          && (row.raw.Some? ==> row.signature == Some(row.raw.value.signature)))
  }

  /** Only the signature in the row can be live, and only while the row says so. */
  ghost predicate ChainInv(w: World) {
    && w.chain.landed.Keys <= w.chain.broadcast <= w.recorded
    && forall s :: Live(w.chain, s) ==> RowIs(w, Submitted, Some(s)) || RowIs(w, Confirmed, Some(s))
  }

  ghost predicate Inv(w: World) { RowInv(w) && ChainInv(w) && PhaseInv(w) }

  ghost predicate AtMostOnePaid(chain: Chain) {
    forall s, t :: Succeeded(chain, s) && Succeeded(chain, t) ==> s == t
  }

  lemma InvMeansAtMostOne(w: World)
    requires Inv(w)
    ensures AtMostOnePaid(w.chain)
  {
    forall s, t | Succeeded(w.chain, s) && Succeeded(w.chain, t) ensures s == t {
      assert Live(w.chain, s) && Live(w.chain, t);
    }
  }

  // ---- Every step keeps the invariant ----

  lemma BeginKeeps(w: World)
    requires Inv(w) && w.phase.Idle?
    ensures Inv(Begin(w))
  {
    if w.row.Some? {
      DeadLeavesNoneLive(w);
    }
  }

  lemma ReadingKeeps(w: World, recent: RpcReply, history: RpcReply, archive: Option<RpcReply>)
    requires Inv(w) && Possible(w, StatusRead(recent, history, archive), true)
    ensures Inv(Step(w, StatusRead(recent, history, archive)))
  {
    var reading := ReadSignatureStatus(recent, history, archive);
    assert Asked(w.phase).Some? && reading.Known? ==> Truthful(w.chain, Asked(w.phase).value, reading.report);
    DeadLeavesNoneLive(w);
  }

  /** When the row's own signature is dead, nothing is live. */
  lemma DeadLeavesNoneLive(w: World)
    requires ChainInv(w)
    ensures forall s :: (RowIs(w, Submitted, Some(s)) || RowIs(w, Confirmed, Some(s))) && Dead(w.chain, s) ==> NoneLive(w.chain)
    ensures w.row.Some? && w.row.value.status != Submitted && w.row.value.status != Confirmed ==> NoneLive(w.chain)
  {
    forall s | (RowIs(w, Submitted, Some(s)) || RowIs(w, Confirmed, Some(s))) && Dead(w.chain, s)
      ensures NoneLive(w.chain)
    {
      forall t | t in w.chain.broadcast ensures Dead(w.chain, t) {
        assert Live(w.chain, t) || Dead(w.chain, t);
      }
    }
    if w.row.Some? && w.row.value.status != Submitted && w.row.value.status != Confirmed {
      forall t | t in w.chain.broadcast ensures Dead(w.chain, t) {
        assert Live(w.chain, t) || Dead(w.chain, t);
      }
    }
  }

  lemma PollKeeps(w: World, report: Option<Report>)
    requires Inv(w) && Possible(w, Polled(report), true)
    ensures Inv(Step(w, Polled(report)))
  {
  }

  /** Carrying out the awaited request keeps rows and chain in order, whether or not
      the code learns of it. */
  lemma EffectKeeps(w: World, now: int)
    requires Inv(w)
    ensures RowInv(Effect(w, now)) && ChainInv(Effect(w, now))
  {
    DeadLeavesNoneLive(w);
    var w' := Effect(w, now);
    forall s | Live(w'.chain, s) ensures RowIs(w', Submitted, Some(s)) || RowIs(w', Confirmed, Some(s)) {
      assert s in w.chain.broadcast ==> Live(w.chain, s);
    }
  }

  /** The updates that fail the row, and those that confirm it. */
  predicate Fails(phase: Phase) {
    phase.RecoverFailing? || phase.PrepareFailing? || phase.SettlingFailed? || phase.CaughtFailing?
  }

  predicate Confirms(phase: Phase) { phase.RecoverConfirming? || phase.SettlingConfirmed? || phase.CaughtConfirming? }

  lemma FailingKeeps(w: World, now: int, reply: DbReply)
    requires Inv(w) && Fails(w.phase)
    ensures Inv(Step(w, Database(now, reply)))
  {
    EffectKeeps(w, now);
    DeadLeavesNoneLive(w);
  }

  lemma ConfirmingKeeps(w: World, now: int, reply: DbReply)
    requires Inv(w) && Confirms(w.phase)
    requires w.phase.SettlingConfirmed? ==> reply != DbThrew(true)
    ensures Inv(Step(w, Database(now, reply)))
  {
    EffectKeeps(w, now);
  }

  lemma DatabaseKeeps(w: World, now: int, reply: DbReply)
    requires Inv(w) && AwaitsDatabase(w.phase)
    requires w.phase.SettlingConfirmed? ==> reply != DbThrew(true)
    ensures Inv(Step(w, Database(now, reply)))
  {
    if Fails(w.phase) {
      FailingKeeps(w, now, reply);
    } else if Confirms(w.phase) {
      ConfirmingKeeps(w, now, reply);
    } else {
      EffectKeeps(w, now);
      DeadLeavesNoneLive(w);
      assert Step(w, Database(now, reply)).chain == w.chain;
    }
  }

  lemma RowReadKeeps(w: World, ok: bool)
    requires Inv(w)
    ensures Inv(Step(w, RowRead(ok)))
  {
    DeadLeavesNoneLive(w);
    if w.row.None? {
      assert NoneLive(w.chain);
    }
  }

  lemma SendKeeps(w: World, outcome: SendReply)
    requires Inv(w) && AwaitsSend(w.phase) && Possible(w, Sent(outcome), true)
    ensures Inv(Step(w, Sent(outcome)))
  {
    EffectKeeps(w, 0);
  }

  lemma LandKeeps(w: World, s: Signature, ok: bool)
    requires Inv(w) && s in w.chain.broadcast && s !in w.chain.landed
    ensures Inv(Step(w, Land(s, ok)))
  {
    var w' := Step(w, Land(s, ok));
    forall t | Live(w'.chain, t) ensures RowIs(w', Submitted, Some(t)) || RowIs(w', Confirmed, Some(t)) {
      assert Live(w.chain, t);
    }
    assert forall t :: Dead(w.chain, t) ==> Dead(w'.chain, t);
    assert forall t :: Succeeded(w.chain, t) ==> Succeeded(w'.chain, t);
    assert Live(w.chain, s);
  }

  lemma StepKeeps(w: World, e: Event)
    requires Inv(w) && Possible(w, e, false)
    ensures Inv(Step(w, e))
  {
    match e
    case Charge(arrival) => if w.phase.Idle? && arrival.WithKey? { BeginKeeps(w); }
    case StatusRead(recent, history, archive) => ReadingKeeps(w, recent, history, archive);
    case Polled(report) => PollKeeps(w, report);
    case HeightRead(height) =>
    case Database(now, reply) => if AwaitsDatabase(w.phase) { DatabaseKeeps(w, now, reply); }
    case RowRead(ok) => RowReadKeeps(w, ok);
    case Sent(outcome) => if AwaitsSend(w.phase) { SendKeeps(w, outcome); }
    case Prepared(p) =>
    case Crash(now, applied) => if applied { EffectKeeps(w, now); }
    case Land(signature, ok) => LandKeeps(w, signature, ok);
  }

  lemma {:induction false} RunKeeps(w: World, events: seq<Event>)
    requires Inv(w) && PossibleRun(w, events, false)
    ensures Inv(Run(w, events))
    decreases |events|
  {
    if events != [] {
      StepKeeps(w, events[0]);
      RunKeeps(Step(w, events[0]), events[1..]);
    }
  }

  // ---- The results ----

  /** Over any run from an unused payment id, with crashes at any await and any chain
      behaviour: at most one transfer succeeds, nothing is broadcast before its
      signature is in the row, `confirmed` is answered only for a success, and a failure,
      unless the wallet's key is missing, only when nothing sent can succeed any more. */
  lemma AtMostOneTransfer(events: seq<Event>)
    requires PossibleRun(INITIAL, events, false)
    ensures var w := Run(INITIAL, events);
            && AtMostOnePaid(w.chain)
            && w.chain.broadcast <= w.recorded
            && (w.phase.Idle? && w.phase.last.Some? && w.phase.last.value.Paid? ==>
                  Succeeded(w.chain, w.phase.last.value.signature))
            && (w.phase.Idle? && w.phase.last.Some? && NotPaid(w.phase.last.value) ==> NoneLive(w.chain))
  {
    RunKeeps(INITIAL, events);
    InvMeansAtMostOne(Run(INITIAL, events));
  }

  /** A confirmed payment stays confirmed, with the signature that paid it. */
  lemma {:induction false} ConfirmedIsFinal(w: World, events: seq<Event>)
    requires Inv(w) && PossibleRun(w, events, false)
    requires w.row.Some? && w.row.value.status == Confirmed
    ensures var w' := Run(w, events);
            && w'.row.Some? && w'.row.value.status == Confirmed && w'.row.value.signature == w.row.value.signature
            && Succeeded(w'.chain, w.row.value.signature.value)
    decreases |events|
  {
    if events != [] {
      assert Live(w.chain, w.row.value.signature.value);
      StepKeeps(w, events[0]);
      ConfirmedStep(w, events[0]);
      ConfirmedIsFinal(Step(w, events[0]), events[1..]);
    }
  }

  lemma ConfirmedStep(w: World, e: Event)
    requires Inv(w) && w.row.Some? && w.row.value.status == Confirmed
    requires Live(w.chain, w.row.value.signature.value)
    ensures var row := Step(w, e).row;
            row.Some? && row.value.status == Confirmed && row.value.signature == w.row.value.signature
  {
  }

  /** What recovery sends is what the row recorded: a rebroadcast can put no other
      signature on the network. */
  lemma RecoveryRebroadcastsRecorded(w: World, e: Event)
    requires Inv(w) && w.phase.RecoverSending? && !e.Land?
    ensures Step(w, e).chain.broadcast <= w.chain.broadcast + {w.row.value.signature.value}
    ensures Step(w, e).row == w.row
  {
  }
}
