/** What a lost reply does to a config payment. The update that confirms a payment inside
    the `try` block may be carried out although its reply is lost; these lemmas say, for
    every run with any such losses, exactly when a second transfer has become possible,
    and that the catch block's guard is all that would have to change. */
module ConfigPaymentLosses {
  import opened Options
  import opened ConfigPayments

  // ---- Where a run can lead ----

  ghost predicate LeadsTo(w: World, w': World, mayLoseConfirm: bool) {
    exists events :: PossibleRun(w, events, mayLoseConfirm) && Run(w, events) == w'
  }

  lemma {:induction false} AppendEvent(w: World, events: seq<Event>, e: Event, mayLoseConfirm: bool)
    requires PossibleRun(w, events, mayLoseConfirm) && Possible(Run(w, events), e, mayLoseConfirm)
    ensures PossibleRun(w, events + [e], mayLoseConfirm)
    decreases |events|
  {
    var all := events + [e];
    if events == [] {
      assert all[1..] == [];
    } else {
      AppendEvent(Step(w, events[0]), events[1..], e, mayLoseConfirm);
      assert all[0] == events[0] && all[1..] == events[1..] + [e];
    }
  }

  lemma Stay(w: World, mayLoseConfirm: bool)
    ensures LeadsTo(w, w, mayLoseConfirm)
  {
    assert PossibleRun(w, [], mayLoseConfirm) && Run(w, []) == w;
  }

  lemma Extend(start: World, w: World, e: Event, mayLoseConfirm: bool) returns (w': World)
    requires LeadsTo(start, w, mayLoseConfirm) && Possible(w, e, mayLoseConfirm)
    ensures w' == Step(w, e) && LeadsTo(start, w', mayLoseConfirm)
  {
    w' := Step(w, e);
    var events :| PossibleRun(start, events, mayLoseConfirm) && Run(start, events) == w;
    AppendEvent(start, events, e, mayLoseConfirm);
    RunAppend(start, events, e);
  }

  /** However the run goes on, if no further confirming reply is lost, at most one
      transfer succeeds. */
  ghost predicate StaysSafe(w: World) { forall w' :: LeadsTo(w, w', false) ==> AtMostOnePaid(w'.chain) }

  // ---- What every run with losses keeps ----

  predicate Holds(w: World, s: Signature) { RowIs(w, Submitted, Some(s)) || RowIs(w, Confirmed, Some(s)) }

  predicate Unlanded(chain: Chain, s: Signature) { s in chain.broadcast && s !in chain.landed }

  ghost predicate NoneUnlanded(chain: Chain) { forall s :: !Unlanded(chain, s) }

  predicate StatusIn(w: World, statuses: set<Status>) { w.row.Some? && w.row.value.status in statuses }

  ghost predicate WeakPhase(w: World) {
    match w.phase
    case Idle(last) =>
      && (last.Some? && last.value.Paid? ==> Succeeded(w.chain, last.value.signature))
      && (last.Some? && NotPaid(last.value) ==> StatusIn(w, {Status.Failed}))
    case Recovering(p) => w.row == Some(p) && RowIs(w, Submitted, p.signature)
    case RecoverHeight(p) => w.row == Some(p) && RowIs(w, Submitted, p.signature)
    case RecoverSending(p) => w.row == Some(p) && RowIs(w, Submitted, p.signature)
    case RecoverRereading(p) => w.row == Some(p) && RowIs(w, Submitted, p.signature)
    case RecoverFailing(p) => RowIs(w, Submitted, p.signature) && Dead(w.chain, p.signature.value)
    case RecoverConfirming(p) => RowIs(w, Submitted, p.signature) && Succeeded(w.chain, p.signature.value)
    case Claiming => StatusIn(w, {Status.Pending, Processing, Status.Failed})
    case NotClaimed => true
    case Preparing => StatusIn(w, {Processing})
    case PrepareFailing(result, _) => StatusIn(w, {Processing}) && !result.Paid?
    case Recording(_, _) => StatusIn(w, {Processing})
    case Sending(tx) => RowIs(w, Submitted, Some(tx.signature)) && NoneUnlanded(w.chain)
    case Polling(tx, _) => RowIs(w, Submitted, Some(tx.signature))
    case Rereading(tx) => RowIs(w, Submitted, Some(tx.signature))
    case SettlingFailed(tx) => RowIs(w, Submitted, Some(tx.signature)) && Dead(w.chain, tx.signature)
    case SettlingConfirmed(tx) => RowIs(w, Submitted, Some(tx.signature)) && Succeeded(w.chain, tx.signature)
    case Catching(already, simulation) => w.row.Some? && (simulation && !already ==> NoneUnlanded(w.chain))
    case CaughtRereading(signature) => RowIs(w, Submitted, Some(signature))
    case CaughtFailing => w.row.Some? && NoneUnlanded(w.chain)
    case CaughtConfirming(signature) => RowIs(w, Submitted, Some(signature)) && Succeeded(w.chain, signature)
  }

  ghost predicate WeakInv(w: World) {
    && RowInv(w) && WeakPhase(w)
    && (StatusIn(w, {Submitted}) ==> w.row.value.raw.Some? && w.row.value.lastValid.Some?)
    && w.chain.landed.Keys <= w.chain.broadcast <= w.recorded
    && forall s :: Unlanded(w.chain, s) ==> Holds(w, s)
  }

  /** Nothing is pending unless the row says submitted with it. */
  lemma NothingUnlanded(w: World)
    requires forall s :: Unlanded(w.chain, s) ==> Holds(w, s)
    ensures w.row.Some? && w.row.value.status != Submitted && w.row.value.status != Confirmed ==> NoneUnlanded(w.chain)
    ensures w.row.Some? && w.row.value.signature.Some? && w.row.value.signature.value in w.chain.landed ==> NoneUnlanded(w.chain)
  {
  }

  lemma WeakEffect(w: World, now: int)
    requires WeakInv(w)
    ensures var w' := Effect(w, now);
            && RowInv(w') && (StatusIn(w', {Submitted}) ==> w'.row.value.raw.Some? && w'.row.value.lastValid.Some?)
            && w'.chain.landed.Keys <= w'.chain.broadcast <= w'.recorded
            && forall s :: Unlanded(w'.chain, s) ==> Holds(w', s)
  {
    NothingUnlanded(w);
    var w' := Effect(w, now);
    forall s | Unlanded(w'.chain, s) ensures Holds(w', s) {
      assert Unlanded(w.chain, s) ==> Holds(w, s);
    }
  }

  lemma WeakDatabase(w: World, now: int, reply: DbReply)
    requires WeakInv(w) && AwaitsDatabase(w.phase)
    ensures WeakInv(Step(w, Database(now, reply)))
  {
    WeakEffect(w, now);
    NothingUnlanded(w);
  }

  lemma WeakSend(w: World, outcome: SendReply)
    requires WeakInv(w) && AwaitsSend(w.phase) && Possible(w, Sent(outcome), true)
    ensures WeakInv(Step(w, Sent(outcome)))
  {
    WeakEffect(w, 0);
  }

  lemma WeakReading(w: World, recent: RpcReply, history: RpcReply, archive: Option<RpcReply>)
    requires WeakInv(w) && Possible(w, StatusRead(recent, history, archive), true)
    ensures WeakInv(Step(w, StatusRead(recent, history, archive)))
  {
    var reading := ReadSignatureStatus(recent, history, archive);
    assert Asked(w.phase).Some? && reading.Known? ==> Truthful(w.chain, Asked(w.phase).value, reading.report);
    NothingUnlanded(w);
  }

  lemma WeakLand(w: World, s: Signature, ok: bool)
    requires WeakInv(w) && Unlanded(w.chain, s)
    ensures WeakInv(Step(w, Land(s, ok)))
  {
    var w' := Step(w, Land(s, ok));
    assert forall t :: Dead(w.chain, t) ==> Dead(w'.chain, t);
    assert forall t :: Succeeded(w.chain, t) ==> Succeeded(w'.chain, t);
    assert forall t :: Unlanded(w'.chain, t) ==> Unlanded(w.chain, t);
  }

  lemma WeakStep(w: World, e: Event)
    requires WeakInv(w) && Possible(w, e, true)
    ensures WeakInv(Step(w, e))
  {
    match e
    case Charge(_) =>
    case StatusRead(recent, history, archive) => WeakReading(w, recent, history, archive);
    case Polled(_) =>
    case HeightRead(_) =>
    case Database(now, reply) => if AwaitsDatabase(w.phase) { WeakDatabase(w, now, reply); }
    case RowRead(_) => NothingUnlanded(w);
    case Sent(outcome) => if AwaitsSend(w.phase) { WeakSend(w, outcome); }
    case Prepared(_) =>
    case Crash(now, applied) => if applied { WeakEffect(w, now); }
    case Land(signature, ok) => WeakLand(w, signature, ok);
  }

  lemma {:induction false} WeakRun(w: World, events: seq<Event>)
    requires WeakInv(w) && PossibleRun(w, events, true)
    ensures WeakInv(Run(w, events))
    decreases |events|
  {
    if events != [] {
      WeakStep(w, events[0]);
      WeakRun(Step(w, events[0]), events[1..]);
    }
  }

  // ---- The unsafe states ----

  /** The code is at a point from which it can fail the row whatever the chain shows. */
  predicate MayFail(w: World) {
    || w.phase.CaughtFailing? || w.phase.Sending?
    || (w.phase.Catching? && (StatusIn(w, {Confirmed}) || (w.phase.simulation && !w.phase.already)))
  }

  /** A transfer has succeeded that the row does not stand for, or may soon not. */
  ghost predicate Unsafe(w: World) { exists s :: Succeeded(w.chain, s) && (!Holds(w, s) || MayFail(w)) }

  /** Where nothing is unsafe, the invariant of a run without losses holds. */
  lemma SafeIsInv(w: World)
    requires WeakInv(w) && !Unsafe(w)
    ensures Inv(w)
  {
    forall s | Live(w.chain, s) ensures Holds(w, s) {
      assert Unlanded(w.chain, s) || Succeeded(w.chain, s);
    }
    if MayFail(w) {
      assert forall s :: !Succeeded(w.chain, s);
      assert !StatusIn(w, {Confirmed});
    }
    NothingLive(w);
  }

  lemma NothingLive(w: World)
    requires ChainInv(w)
    ensures w.row.Some? && w.row.value.status != Submitted && w.row.value.status != Confirmed ==> NoneLive(w.chain)
    ensures NoneUnlanded(w.chain) && (forall s :: !Succeeded(w.chain, s)) ==> NoneLive(w.chain)
  {
    if w.row.Some? && w.row.value.status != Submitted && w.row.value.status != Confirmed {
      forall s | s in w.chain.broadcast ensures Dead(w.chain, s) {
        assert Live(w.chain, s) || Dead(w.chain, s);
      }
    }
    if NoneUnlanded(w.chain) && forall s :: !Succeeded(w.chain, s) {
      forall s | s in w.chain.broadcast ensures Dead(w.chain, s) {
        assert !Unlanded(w.chain, s) && !Succeeded(w.chain, s);
      }
    }
  }

  /** An unsafe state goes on, without any further loss, to a failed or overwritten row
      beside the success, at rest. */
  ghost predicate Abandoned(w: World, s: Signature) {
    w.phase.Idle? && Succeeded(w.chain, s) && !Holds(w, s) && WeakInv(w)
  }

  lemma FailsNow(start: World, w: World, s: Signature) returns (w': World)
    requires LeadsTo(start, w, false) && WeakInv(w) && w.phase.CaughtFailing? && Succeeded(w.chain, s)
    ensures LeadsTo(start, w', false) && Abandoned(w', s)
  {
    WeakStep(w, Database(0, Done));
    w' := Extend(start, w, Database(0, Done), false);
  }

  lemma CatchFails(start: World, w: World, s: Signature) returns (w': World)
    requires LeadsTo(start, w, false) && WeakInv(w) && w.phase.Catching? && MayFail(w) && Succeeded(w.chain, s)
    ensures LeadsTo(start, w', false) && Abandoned(w', s)
  {
    WeakStep(w, RowRead(true));
    w' := Extend(start, w, RowRead(true), false);
    w' := FailsNow(start, w', s);
  }

  lemma SendFails(start: World, w: World, s: Signature) returns (w': World)
    requires LeadsTo(start, w, false) && WeakInv(w) && w.phase.Sending? && Succeeded(w.chain, s)
    ensures LeadsTo(start, w', false) && Abandoned(w', s)
  {
    WeakStep(w, Sent(Refused(false, true, false)));
    w' := Extend(start, w, Sent(Refused(false, true, false)), false);
    w' := CatchFails(start, w', s);
  }

  lemma UnsafeAbandons(w: World) returns (w': World, s: Signature)
    requires WeakInv(w) && Unsafe(w)
    ensures LeadsTo(w, w', false) && Abandoned(w', s)
  {
    Stay(w, false);
    s :| Succeeded(w.chain, s) && (!Holds(w, s) || MayFail(w));
    if !Holds(w, s) {
      WeakStep(w, Crash(0, false));
      w' := Extend(w, w, Crash(0, false), false);
    } else if w.phase.CaughtFailing? {
      w' := FailsNow(w, w, s);
    } else if w.phase.Sending? {
      w' := SendFails(w, w, s);
    } else {
      w' := CatchFails(w, w, s);
    }
  }

  lemma {:induction false} FreshSignature(used: set<Signature>) returns (s: Signature)
    ensures forall t :: t in used ==> t < s
  {
    if used == {} {
      s := 0;
    } else {
      var t :| t in used;
      var u := FreshSignature(used - {t});
      s := if u > t then u else t + 1;
      assert forall x :: x in used ==> x == t || x in used - {t};
    }
  }

  /** A claimable row leads to a broadcast transaction `s` that lands and succeeds. */
  lemma PayOnce(start: World, w: World, s: Signature, mayLoseConfirm: bool) returns (w': World)
    requires LeadsTo(start, w, mayLoseConfirm) && w.phase.Idle? && s !in w.chain.landed
    requires w.row.None? || w.row.value.status in {Status.Pending, Status.Failed, Processing}
    ensures LeadsTo(start, w', mayLoseConfirm) && w'.phase == Polling(Transaction(s), POLL_ATTEMPTS)
    ensures w'.chain.landed == w.chain.landed[s := true]
    ensures w'.row.Some? && w'.row.value.status == Submitted
  {
    w' := ClaimOnce(start, w, mayLoseConfirm);
    w' := Extend(start, w', Prepared(Signed(Transaction(s), 0)), mayLoseConfirm);
    w' := Extend(start, w', Database(0, Done), mayLoseConfirm);
    w' := Extend(start, w', Sent(Accepted), mayLoseConfirm);
    w' := Extend(start, w', Land(s, true), mayLoseConfirm);
  }

  lemma ClaimOnce(start: World, w: World, mayLoseConfirm: bool) returns (w': World)
    requires LeadsTo(start, w, mayLoseConfirm) && w.phase.Idle?
    requires w.row.None? || w.row.value.status in {Status.Pending, Status.Failed, Processing}
    ensures LeadsTo(start, w', mayLoseConfirm) && w'.phase == Preparing && w'.chain == w.chain && w'.row.Some?
  {
    w' := Extend(start, w, Charge(WithKey), mayLoseConfirm);
    var now := w'.row.value.startedAt + CLAIM_TIMEOUT + 1;
    w' := Extend(start, w', Database(now, Done), mayLoseConfirm);
  }

  /** Without the wallet's key a call answers that the payment failed, whatever was sent:
      here the transfer has succeeded. */
  lemma MissingKeyFailsPaid(s: Signature) returns (w: World)
    ensures LeadsTo(INITIAL, w, false) && w.phase == Return(KeyMissing) && Succeeded(w.chain, s)
  {
    Stay(INITIAL, false);
    w := PayOnce(INITIAL, INITIAL, s, false);
    w := Extend(INITIAL, w, Crash(0, false), false);
    w := Extend(INITIAL, w, Charge(WithoutKey), false);
  }

  ghost predicate PaidTwice(w: World) { exists s, t :: s != t && Succeeded(w.chain, s) && Succeeded(w.chain, t) }

  lemma PayAgain(start: World, w: World, s: Signature) returns (w': World)
    requires LeadsTo(start, w, false) && Abandoned(w, s)
    requires w.row.Some? && w.row.value.status in {Status.Pending, Status.Failed, Processing}
    ensures LeadsTo(start, w', false) && PaidTwice(w')
  {
    var t := FreshSignature(w.chain.landed.Keys + {s});
    w' := PayOnce(start, w, t, false);
    assert t != s && Succeeded(w'.chain, s) && Succeeded(w'.chain, t);
  }

  /** The row waits for a transaction that has failed: recovery fails it. */
  lemma RecoverDead(start: World, w: World, s: Signature) returns (w': World)
    requires LeadsTo(start, w, false) && Abandoned(w, s) && StatusIn(w, {Submitted})
    requires Dead(w.chain, w.row.value.signature.value)
    ensures LeadsTo(start, w', false) && Abandoned(w', s) && StatusIn(w', {Status.Failed})
  {
    var failed := StatusRead(Reply(Seen(true, false)), Reply(Unseen), None);
    WeakStep(w, Charge(WithKey));
    w' := Extend(start, w, Charge(WithKey), false);
    WeakStep(w', failed);
    w' := Extend(start, w', failed, false);
    WeakStep(w', Database(0, Done));
    w' := Extend(start, w', Database(0, Done), false);
  }

  /** The row waits for a transaction that was never sent: recovery sends it. */
  lemma RecoverUnsent(start: World, w: World, s: Signature) returns (w': World)
    requires LeadsTo(start, w, false) && Abandoned(w, s) && StatusIn(w, {Submitted})
    requires w.row.value.signature.value !in w.chain.landed
    ensures LeadsTo(start, w', false) && w'.chain.landed == w.chain.landed
    ensures w'.chain.broadcast == w.chain.broadcast + {w.row.value.signature.value}
  {
    w' := Extend(start, w, Charge(WithKey), false);
    w' := Extend(start, w', StatusRead(Reply(Unseen), Reply(Unseen), None), false);
    w' := Extend(start, w', HeightRead(Some(0)), false);
    w' := Extend(start, w', Sent(Accepted), false);
  }

  lemma AbandonedPaysTwice(start: World, w: World, s: Signature) returns (w': World)
    requires LeadsTo(start, w, false) && Abandoned(w, s)
    ensures LeadsTo(start, w', false) && PaidTwice(w')
  {
    var row := w.row.value;
    if StatusIn(w, {Submitted}) {
      var t := row.signature.value;
      if Dead(w.chain, t) {
        w' := RecoverDead(start, w, s);
        w' := PayAgain(start, w', s);
      } else if Succeeded(w.chain, t) {
        w' := w;
      } else {
        w' := RecoverUnsent(start, w, s);
        w' := Extend(start, w', Land(t, true), false);
        assert t != s && Succeeded(w'.chain, s) && Succeeded(w'.chain, t);
      }
    } else if StatusIn(w, {Confirmed}) {
      w' := w;
      assert row.signature.value != s && Succeeded(w'.chain, s) && Succeeded(w'.chain, row.signature.value);
    } else {
      w' := PayAgain(start, w, s);
    }
  }

  lemma UnsafePaysTwice(w: World) returns (w': World)
    requires WeakInv(w) && Unsafe(w)
    ensures LeadsTo(w, w', false) && PaidTwice(w')
  {
    var rest, s := UnsafeAbandons(w);
    w' := AbandonedPaysTwice(w, rest, s);
  }

  /** After any run, with any number of confirming replies lost: all that can follow
      without a further loss pays at most once, if and only if no success is left that
      the row does not stand for or the code may be about to fail. */
  lemma SafeExactly(events: seq<Event>)
    requires PossibleRun(INITIAL, events, true)
    ensures StaysSafe(Run(INITIAL, events)) <==> !Unsafe(Run(INITIAL, events))
  {
    WeakRun(INITIAL, events);
    var w := Run(INITIAL, events);
    if Unsafe(w) {
      var w' := UnsafePaysTwice(w);
      assert !AtMostOnePaid(w'.chain);
    } else {
      SafeIsInv(w);
      forall w' | LeadsTo(w, w', false) ensures AtMostOnePaid(w'.chain) {
        var rest :| PossibleRun(w, rest, false) && Run(w, rest) == w';
        RunKeeps(w, rest);
        InvMeansAtMostOne(w');
      }
    }
  }

  // ---- At the guard of the catch block ----

  predicate ConfirmedRow(w: World) { StatusIn(w, {Confirmed}) }

  /** The catch block carries out its update on a row it read as confirmed. */
  predicate FailsConfirmed(w: World, e: Event) {
    && w.phase.CaughtFailing? && ConfirmedRow(w)
    && ((e.Database? && (e.reply.Done? || e.reply.applied)) || (e.Crash? && e.applied))
  }

  /** The catch block is about to read, or has read, a confirmed row. */
  predicate CatchesConfirmed(w: World) { (w.phase.Catching? || w.phase.CaughtFailing?) && ConfirmedRow(w) }

  /** At some event of the run the catch block failed a confirmed row, or it is about to. */
  ghost predicate CatchForgets(w: World, events: seq<Event>)
    decreases |events|
  {
    if events == [] then CatchesConfirmed(w)
    else FailsConfirmed(w, events[0]) || CatchForgets(Step(w, events[0]), events[1..])
  }

  /** In order but for a confirmed row in the catch block. */
  ghost predicate Hanging(w: World) { RowInv(w) && ChainInv(w) && CatchesConfirmed(w) }

  lemma HangingStep(w: World, e: Event)
    requires Hanging(w) && Possible(w, e, true) && !FailsConfirmed(w, e)
    ensures Inv(Step(w, e)) || Hanging(Step(w, e))
  {
    assert e.Land? ==> Live(w.chain, e.signature);
  }

  lemma LostReplyHangs(w: World, now: int)
    requires Inv(w) && w.phase.SettlingConfirmed?
    ensures Hanging(Step(w, Database(now, DbThrew(true))))
  {
    EffectKeeps(w, now);
  }

  lemma InvOrHangs(w: World, e: Event)
    requires Inv(w) && Possible(w, e, true)
    ensures Inv(Step(w, e)) || Hanging(Step(w, e))
  {
    if w.phase.SettlingConfirmed? && e.Database? && e.reply == DbThrew(true) {
      LostReplyHangs(w, e.now);
    } else {
      StepKeeps(w, e);
    }
  }

  lemma InvIsSafe(w: World)
    requires Inv(w)
    ensures !Unsafe(w)
  {
    forall s | Succeeded(w.chain, s) ensures Holds(w, s) && !MayFail(w) {
      assert Live(w.chain, s);
    }
  }

  lemma {:induction false} NotForgottenIsSafe(w: World, events: seq<Event>)
    requires (Inv(w) || Hanging(w)) && PossibleRun(w, events, true) && !CatchForgets(w, events)
    ensures !Unsafe(Run(w, events))
    decreases |events|
  {
    if events == [] {
      InvIsSafe(w);
    } else {
      if Inv(w) {
        InvOrHangs(w, events[0]);
      } else {
        HangingStep(w, events[0]);
      }
      NotForgottenIsSafe(Step(w, events[0]), events[1..]);
    }
  }

  /** A new transaction has a signature no earlier one had. */
  predicate SignsFreshly(w: World, e: Event) {
    w.phase.Preparing? && e.Prepared? && e.preparation.Signed? ==> e.preparation.tx.signature !in w.recorded
  }

  ghost predicate FreshRun(w: World, events: seq<Event>)
    decreases |events|
  {
    events != [] ==> SignsFreshly(w, events[0]) && FreshRun(Step(w, events[0]), events[1..])
  }

  /** The row no longer stands for the success `s`, and will not again. */
  ghost predicate Forgotten(w: World, s: Signature) {
    && WeakInv(w) && Succeeded(w.chain, s) && !Holds(w, s)
    && (w.phase.Recording? ==> w.phase.tx.signature != s)
  }

  lemma ForgottenStep(w: World, e: Event, s: Signature)
    requires Forgotten(w, s) && Possible(w, e, true) && SignsFreshly(w, e)
    ensures Forgotten(Step(w, e), s)
  {
    WeakStep(w, e);
    assert s in w.recorded;
  }

  lemma {:induction false} ForgottenRun(w: World, events: seq<Event>, s: Signature)
    requires Forgotten(w, s) && PossibleRun(w, events, true) && FreshRun(w, events)
    ensures Unsafe(Run(w, events))
    decreases |events|
  {
    if events == [] {
      assert Succeeded(w.chain, s) && !Holds(w, s);
    } else {
      ForgottenStep(w, events[0], s);
      ForgottenRun(Step(w, events[0]), events[1..], s);
    }
  }

  lemma ForgetsNow(w: World, e: Event)
    requires WeakInv(w) && Possible(w, e, true) && FailsConfirmed(w, e)
    ensures Forgotten(Step(w, e), w.row.value.signature.value)
  {
    WeakStep(w, e);
  }

  lemma {:induction false} ForgottenIsUnsafe(w: World, events: seq<Event>)
    requires WeakInv(w) && PossibleRun(w, events, true) && FreshRun(w, events) && CatchForgets(w, events)
    ensures Unsafe(Run(w, events))
    decreases |events|
  {
    if events == [] {
      assert Succeeded(w.chain, w.row.value.signature.value) && MayFail(w);
    } else if FailsConfirmed(w, events[0]) {
      ForgetsNow(w, events[0]);
      ForgottenRun(Step(w, events[0]), events[1..], w.row.value.signature.value);
    } else {
      WeakStep(w, events[0]);
      ForgottenIsUnsafe(Step(w, events[0]), events[1..]);
    }
  }

  /** After any run, with any confirming replies lost: whatever follows without a further
      loss pays at most once, if and only if the catch block has not failed, and is not
      about to fail, a row that was confirmed. */
  lemma AtMostOneExactly(events: seq<Event>)
    requires PossibleRun(INITIAL, events, true) && FreshRun(INITIAL, events)
    ensures StaysSafe(Run(INITIAL, events)) <==> !CatchForgets(INITIAL, events)
  {
    SafeExactly(events);
    if CatchForgets(INITIAL, events) {
      ForgottenIsUnsafe(INITIAL, events);
    } else {
      NotForgottenIsSafe(INITIAL, events);
    }
  }

  // ---- The guard repaired ----

  /** The machine whose catch block does not fail a row it read as confirmed. */
  function GuardedStep(w: World, e: Event): World {
    if e.RowRead? && e.ok && w.phase.Catching? && ConfirmedRow(w) then w.(phase := Return(Threw)) else Step(w, e)
  }

  function GuardedRun(w: World, events: seq<Event>): World
    decreases |events|
  {
    if events == [] then w else GuardedRun(GuardedStep(w, events[0]), events[1..])
  }

  ghost predicate PossibleGuarded(w: World, events: seq<Event>)
    decreases |events|
  {
    events != [] ==> Possible(w, events[0], true) && PossibleGuarded(GuardedStep(w, events[0]), events[1..])
  }

  lemma GuardedKeeps(w: World, e: Event)
    requires Inv(w) || (Hanging(w) && w.phase.Catching?)
    requires Possible(w, e, true)
    ensures var w' := GuardedStep(w, e); Inv(w') || (Hanging(w') && w'.phase.Catching?)
  {
    if Inv(w) {
      InvOrHangs(w, e);
      if Hanging(Step(w, e)) && !Inv(Step(w, e)) {
        InvHangsInCatch(w, e);
      }
    } else if !(e.RowRead? && e.ok) {
      HangingStep(w, e);
    }
  }

  lemma InvHangsInCatch(w: World, e: Event)
    requires Inv(w) && Possible(w, e, true) && Hanging(Step(w, e)) && !Inv(Step(w, e))
    ensures Step(w, e).phase.Catching?
  {
    if !(w.phase.SettlingConfirmed? && e.Database? && e.reply == DbThrew(true)) {
      StepKeeps(w, e);
    }
  }

  /** With `confirmed` excluded at the guard, the protocol is safe under every reply. */
  lemma {:induction false} GuardedIsSafe(w: World, events: seq<Event>)
    requires (Inv(w) || (Hanging(w) && w.phase.Catching?)) && PossibleGuarded(w, events)
    ensures AtMostOnePaid(GuardedRun(w, events).chain)
    decreases |events|
  {
    if events == [] {
      if Inv(w) {
        InvMeansAtMostOne(w);
      } else {
        HangingMeansAtMostOne(w);
      }
    } else {
      GuardedKeeps(w, events[0]);
      GuardedIsSafe(GuardedStep(w, events[0]), events[1..]);
    }
  }

  lemma HangingMeansAtMostOne(w: World)
    requires Hanging(w)
    ensures AtMostOnePaid(w.chain)
  {
    forall s, t | Succeeded(w.chain, s) && Succeeded(w.chain, t) ensures s == t {
      assert Live(w.chain, s) && Live(w.chain, t);
    }
  }

  lemma RepairedGuardPaysOnce(events: seq<Event>)
    requires PossibleGuarded(INITIAL, events)
    ensures AtMostOnePaid(GuardedRun(INITIAL, events).chain)
  {
    GuardedIsSafe(INITIAL, events);
  }

  // ---- A concrete loss ----

  /** The confirming update is carried out, its reply is lost, and the row ends failed. */
  lemma LoseConfirm(start: World, w: World, s: Signature) returns (w': World)
    requires LeadsTo(start, w, true) && w.phase == Polling(Transaction(s), POLL_ATTEMPTS) && Succeeded(w.chain, s)
    requires w.row.Some?
    ensures LeadsTo(start, w', true) && w'.phase.Idle? && w'.chain == w.chain
    ensures w'.row.Some? && w'.row.value.status == Failed
  {
    w' := LoseReply(start, w, s);
    w' := Extend(start, w', RowRead(true), true);
    w' := Extend(start, w', Database(0, Done), true);
  }

  lemma LoseReply(start: World, w: World, s: Signature) returns (w': World)
    requires LeadsTo(start, w, true) && w.phase == Polling(Transaction(s), POLL_ATTEMPTS) && Succeeded(w.chain, s)
    requires w.row.Some?
    ensures LeadsTo(start, w', true) && w'.phase == Catching(false, false) && w'.chain == w.chain && ConfirmedRow(w')
  {
    w' := Extend(start, w, Polled(Some(Seen(false, true))), true);
    w' := Extend(start, w', Database(0, DbThrew(true)), true);
  }

  lemma LostConfirmPaysTwice() returns (w: World)
    ensures LeadsTo(INITIAL, w, true) && Succeeded(w.chain, 1) && Succeeded(w.chain, 2)
  {
    Stay(INITIAL, true);
    w := PayOnce(INITIAL, INITIAL, 1, true);
    w := LoseConfirm(INITIAL, w, 1);
    w := PayOnce(INITIAL, w, 2, true);
  }
}
