/** How long the condition of a recovery lasted before it started, over any run of
    observations, completions and restarts, with any of the writes lost. */
module RecoveryConfirmation {
  import opened Options
  import opened RecoveryManagement

  /** Event `i` is an observation made while no recovery was running. */
  predicate Idle(cfg: Config, disk: Option<Record>, events: seq<Event>, i: nat)
    requires i < |events|
  {
    events[i].Observe? && !After(cfg, disk, events[..i]).running
  }

  /** Since event `from` (or since the boot, for -1), stamped `since`, each observation
      made while no recovery was running saw a trigger. */
  ghost predicate TriggeredSince(cfg: Config, disk: Option<Record>, events: seq<Event>, from: int, since: int) {
    && -1 <= from < |events|
    && (if from == -1 then Boot(disk).record.drainedSince == At(since)
        else Idle(cfg, disk, events, from) && Truncated(events[from].o.now) == since)
    && (forall k :: 0 <= k < |events| && from <= k && Idle(cfg, disk, events, k) ==> TriggerOf(events[k].o).Some?)
  }

  lemma TriggeredExtends(cfg: Config, disk: Option<Record>, events: seq<Event>, from: int, since: int)
    requires events != [] && TriggeredSince(cfg, disk, events[..|events| - 1], from, since)
    requires Idle(cfg, disk, events, |events| - 1) ==> TriggerOf(events[|events| - 1].o).Some?
    ensures TriggeredSince(cfg, disk, events, from, since)
  {
    forall k: nat | k < |events| - 1 ensures Idle(cfg, disk, events, k) == Idle(cfg, disk, events[..|events| - 1], k) {
      IdleInPrefix(cfg, disk, events, k);
    }
  }

  lemma IdleInPrefix(cfg: Config, disk: Option<Record>, events: seq<Event>, k: nat)
    requires k < |events| - 1
    ensures Idle(cfg, disk, events[..|events| - 1], k) == Idle(cfg, disk, events, k)
  {
    assert events[..|events| - 1][..k] == events[..k];
  }

  /** The stamp stands for a condition that lasted at least since then. */
  ghost predicate StampHolds(cfg: Config, disk: Option<Record>, events: seq<Event>, stamp: Stamp) {
    stamp.At? ==> exists from, since :: since <= stamp.time && TriggeredSince(cfg, disk, events, from, since)
  }

  /** Whatever became of the writes, each restart finds no stamp, or one that holds. */
  ghost predicate RestartsFindStamps(cfg: Config, disk: Option<Record>, events: seq<Event>) {
    forall k :: 0 <= k < |events| && events[k].Restart? ==>
      StampHolds(cfg, disk, events[..k], Boot(After(cfg, disk, events[..k]).disk).record.drainedSince)
  }

  lemma StampsInPrefix(cfg: Config, disk: Option<Record>, events: seq<Event>, n: nat)
    requires n <= |events| && RestartsFindStamps(cfg, disk, events)
    ensures RestartsFindStamps(cfg, disk, events[..n])
  {
    forall k | 0 <= k < n && events[..n][k].Restart?
      ensures StampHolds(cfg, disk, events[..n][..k], Boot(After(cfg, disk, events[..n][..k]).disk).record.drainedSince)
    {
      assert events[..n][..k] == events[..k];
    }
  }

  lemma StampExtends(cfg: Config, disk: Option<Record>, events: seq<Event>, stamp: Stamp)
    requires events != [] && StampHolds(cfg, disk, events[..|events| - 1], stamp)
    requires Idle(cfg, disk, events, |events| - 1) ==> TriggerOf(events[|events| - 1].o).Some?
    ensures StampHolds(cfg, disk, events, stamp)
  {
    if stamp.At? {
      var from, since :| since <= stamp.time && TriggeredSince(cfg, disk, events[..|events| - 1], from, since);
      TriggeredExtends(cfg, disk, events, from, since);
    }
  }

  lemma {:induction false} SinceHolds(cfg: Config, disk: Option<Record>, events: seq<Event>)
    requires RestartsFindStamps(cfg, disk, events)
    ensures StampHolds(cfg, disk, events, After(cfg, disk, events).record.drainedSince)
  {
    if events == [] {
      if Boot(disk).record.drainedSince.At? {
        assert TriggeredSince(cfg, disk, events, -1, Boot(disk).record.drainedSince.time);
      }
    } else {
      var n := |events| - 1;
      StampsInPrefix(cfg, disk, events, n);
      SinceHolds(cfg, disk, events[..n]);
      StampAfterStep(cfg, disk, events);
    }
  }

  /** A condition seen now lasts since now. */
  lemma TriggeredNow(cfg: Config, disk: Option<Record>, events: seq<Event>, stamp: Stamp)
    requires events != [] && events[|events| - 1].Observe? && stamp == Format(events[|events| - 1].o.now)
    requires Idle(cfg, disk, events, |events| - 1) && TriggerOf(events[|events| - 1].o).Some?
    ensures TriggeredSince(cfg, disk, events, |events| - 1, stamp.time)
  {
  }

  lemma StampAfterStep(cfg: Config, disk: Option<Record>, events: seq<Event>)
    requires events != []
    requires var n := |events| - 1;
             && StampHolds(cfg, disk, events[..n], After(cfg, disk, events[..n]).record.drainedSince)
             && (events[n].Restart? ==> StampHolds(cfg, disk, events[..n], Boot(After(cfg, disk, events[..n]).disk).record.drainedSince))
    ensures StampHolds(cfg, disk, events, After(cfg, disk, events).record.drainedSince)
  {
    var n := |events| - 1;
    var before, stamp := After(cfg, disk, events[..n]), After(cfg, disk, events).record.drainedSince;
    StepSince(before, cfg, events[n]);
    if stamp.At? {
      if events[n].Observe? && !before.running && before.record.drainedSince.Blank? {
        TriggeredNow(cfg, disk, events, stamp);
      } else {
        StampExtends(cfg, disk, events, stamp);
      }
    }
  }

  /** What can be compared at a restart: the file shows no stamp, or the record's. */
  ghost predicate StampsKept(cfg: Config, disk: Option<Record>, events: seq<Event>) {
    forall k :: 0 <= k < |events| && events[k].Restart? ==> StampKept(After(cfg, disk, events[..k]))
  }

  predicate StampKept(m: Manager) {
    Boot(m.disk).record.drainedSince.At? ==> Boot(m.disk).record.drainedSince == m.record.drainedSince
  }

  lemma {:induction false} KeptStampsHold(cfg: Config, disk: Option<Record>, events: seq<Event>)
    requires StampsKept(cfg, disk, events)
    ensures RestartsFindStamps(cfg, disk, events)
  {
    if events != [] {
      var n := |events| - 1;
      KeptInPrefix(cfg, disk, events);
      KeptStampsHold(cfg, disk, events[..n]);
      SinceHolds(cfg, disk, events[..n]);
      StampsWithLast(cfg, disk, events);
    }
  }

  lemma KeptInPrefix(cfg: Config, disk: Option<Record>, events: seq<Event>)
    requires StampsKept(cfg, disk, events) && events != []
    ensures StampsKept(cfg, disk, events[..|events| - 1])
    ensures events[|events| - 1].Restart? ==> StampKept(After(cfg, disk, events[..|events| - 1]))
  {
    var n := |events| - 1;
    forall k | 0 <= k < n && events[..n][k].Restart? ensures StampKept(After(cfg, disk, events[..n][..k])) {
      assert events[..n][..k] == events[..k];
    }
  }

  lemma StampsWithLast(cfg: Config, disk: Option<Record>, events: seq<Event>)
    requires events != [] && RestartsFindStamps(cfg, disk, events[..|events| - 1])
    requires events[|events| - 1].Restart? ==>
               StampHolds(cfg, disk, events[..|events| - 1], Boot(After(cfg, disk, events[..|events| - 1]).disk).record.drainedSince)
    ensures RestartsFindStamps(cfg, disk, events)
  {
    var n := |events| - 1;
    forall k | 0 <= k < |events| && events[k].Restart?
      ensures StampHolds(cfg, disk, events[..k], Boot(After(cfg, disk, events[..k]).disk).record.drainedSince)
    {
      assert k < n ==> events[..n][..k] == events[..k] && events[..n][k].Restart?;
    }
  }

  /** The start at the end of the run was confirmed: every observation outside a recovery
      saw a trigger, from one made the confirmation time before, up to truncation (or
      from a stamp found on disk at the first boot). */
  ghost predicate Confirmed(cfg: Config, disk: Option<Record>, events: seq<Event>, from: int, since: int) {
    && events != [] && events[|events| - 1].Observe?
    && TriggeredSince(cfg, disk, events, from, since)
    && events[|events| - 1].o.now - since >= cfg.confirmation
  }

  /** A recovery starts only on a condition that lasted: there is an earlier observation
      (or a stamp found on disk at boot) more than the confirmation time less one second
      before, from which on every observation outside a recovery saw a trigger. */
  lemma ConfirmedBeforeStart(cfg: Config, disk: Option<Record>, events: seq<Event>) returns (from: int, since: int)
    requires RestartsFindStamps(cfg, disk, events) && events != [] && StartsAt(cfg, disk, events, |events| - 1)
    ensures Confirmed(cfg, disk, events, from, since)
    ensures from >= 0 ==> events[|events| - 1].o.now - events[from].o.now > cfg.confirmation - SECOND
  {
    SinceHolds(cfg, disk, events);
    var stamp := StampOfStart(cfg, disk, events);
    from, since :| since <= stamp && TriggeredSince(cfg, disk, events, from, since);
  }

  lemma StampOfStart(cfg: Config, disk: Option<Record>, events: seq<Event>) returns (stamp: int)
    requires events != [] && StartsAt(cfg, disk, events, |events| - 1)
    ensures After(cfg, disk, events).record.drainedSince == At(stamp)
    ensures events[|events| - 1].o.now - stamp >= cfg.confirmation
  {
    var n := |events| - 1;
    StartsIffRuleHolds(After(cfg, disk, events[..n]), cfg, events[n].o, events[n].first);
    stamp := Noted(After(cfg, disk, events[..n]), events[n].o, events[n].first).record.drainedSince.time;
  }

  // ---- Exactly when a stamp read back at a restart starts an unconfirmed recovery ----

  ghost predicate StartConfirmed(cfg: Config, disk: Option<Record>, events: seq<Event>) {
    exists from, since :: Confirmed(cfg, disk, events, from, since)
  }

  /** `all` goes on from `events` with a restart and observations, of which the last and
      no other starts a recovery. */
  ghost predicate NextStart(cfg: Config, disk: Option<Record>, events: seq<Event>, all: seq<Event>) {
    && events + [Restart] < all && StartsAt(cfg, disk, all, |all| - 1)
    && NoStartIn(cfg, disk, all, |events| + 1, |all| - 1)
  }

  ghost predicate NoStartIn(cfg: Config, disk: Option<Record>, events: seq<Event>, from: nat, to: nat)
    requires to <= |events|
  {
    forall k: nat :: from <= k < to ==> events[k].Observe? && !StartsAt(cfg, disk, events, k)
  }

  /** However the run goes on after a restart, its next start is confirmed. */
  ghost predicate NextStartsConfirmed(cfg: Config, disk: Option<Record>, events: seq<Event>) {
    forall all :: NextStart(cfg, disk, events, all) ==> StartConfirmed(cfg, disk, all)
  }

  /** The first moment the file allows a start on the stamp it shows. */
  function Earliest(found: Record, cfg: Config): int
    requires found.drainedSince.At?
  {
    var confirmed := found.drainedSince.time + cfg.confirmation;
    if found.nextEligibleAt.At? && found.nextEligibleAt.time > confirmed then found.nextEligibleAt.time else confirmed
  }

  /** The file shows a stamp that no lasting condition of the run accounts for by then. */
  ghost predicate StaleStamp(cfg: Config, disk: Option<Record>, events: seq<Event>) {
    var found := Boot(After(cfg, disk, events).disk).record;
    && cfg.enabled && found.drainedSince.At?
    && forall from, since :: TriggeredSince(cfg, disk, events, from, since) ==> since + cfg.confirmation > Earliest(found, cfg)
  }

  ghost predicate Stamped(cfg: Config, disk: Option<Record>, events: seq<Event>, since: int) {
    exists from :: TriggeredSince(cfg, disk, events, from, since)
  }

  ghost predicate Outlasts(cfg: Config, disk: Option<Record>, events: seq<Event>, all: seq<Event>) {
    forall from, since :: TriggeredSince(cfg, disk, events, from, since) ==> TriggeredSince(cfg, disk, all, from, since)
  }

  /** The stamp is still the one found, and the run's conditions still last, or it is a
      new one. */
  ghost predicate StampAccounted(cfg: Config, disk: Option<Record>, events: seq<Event>, found: Stamp, all: seq<Event>) {
    var stamp := After(cfg, disk, all).record.drainedSince;
    stamp.At? ==> (stamp == found && Outlasts(cfg, disk, events, all)) || Stamped(cfg, disk, all, stamp.time)
  }

  lemma OutlastsStep(cfg: Config, disk: Option<Record>, events: seq<Event>, all: seq<Event>)
    requires all != [] && Outlasts(cfg, disk, events, all[..|all| - 1])
    requires Idle(cfg, disk, all, |all| - 1) ==> TriggerOf(all[|all| - 1].o).Some?
    ensures Outlasts(cfg, disk, events, all)
  {
    forall from, since | TriggeredSince(cfg, disk, events, from, since) ensures TriggeredSince(cfg, disk, all, from, since) {
      TriggeredExtends(cfg, disk, all, from, since);
    }
  }

  lemma StampAccountedStep(cfg: Config, disk: Option<Record>, events: seq<Event>, found: Stamp, all: seq<Event>)
    requires all != [] && all[|all| - 1].Observe? && !After(cfg, disk, all[..|all| - 1]).running
    requires StampAccounted(cfg, disk, events, found, all[..|all| - 1])
    ensures StampAccounted(cfg, disk, events, found, all)
  {
    var n := |all| - 1;
    var m, stamp := After(cfg, disk, all[..n]), After(cfg, disk, all).record.drainedSince;
    StepSince(m, cfg, all[n]);
    if stamp.At? {
      if m.record.drainedSince.Blank? {
        TriggeredNow(cfg, disk, all, stamp);
      } else if Stamped(cfg, disk, all[..n], stamp.time) {
        var from :| TriggeredSince(cfg, disk, all[..n], from, stamp.time);
        TriggeredExtends(cfg, disk, all, from, stamp.time);
      } else {
        OutlastsStep(cfg, disk, events, all);
      }
    }
  }

  /** The manager after a restart and observations that started nothing. */
  ghost predicate IdleSince(m: Manager, found: Record) {
    !m.running && m.record.nextEligibleAt == found.nextEligibleAt
  }

  lemma IdleSinceStep(m: Manager, cfg: Config, e: Event, found: Record)
    requires IdleSince(m, found) && e.Observe? && !Starts(m, cfg, e.o, e.first)
    ensures IdleSince(Step(m, cfg, e), found)
  {
    StepEligibility(m, cfg, e);
  }

  /** No recovery has started since the restart, and the stamp is accounted for. */
  ghost predicate Waits(cfg: Config, disk: Option<Record>, events: seq<Event>, found: Record, all: seq<Event>) {
    IdleSince(After(cfg, disk, all), found) && StampAccounted(cfg, disk, events, found.drainedSince, all)
  }

  lemma {:induction false} WaitsOn(cfg: Config, disk: Option<Record>, events: seq<Event>, all: seq<Event>, m: nat, n: nat, found: Record)
    requires m <= n <= |all| && NoStartIn(cfg, disk, all, m, n) && Waits(cfg, disk, events, found, all[..m])
    ensures Waits(cfg, disk, events, found, all[..n])
  {
    if m < n {
      WaitsOn(cfg, disk, events, all, m, n - 1, found);
      assert all[n - 1].Observe? && !StartsAt(cfg, disk, all, n - 1);
      WaitsOneMore(cfg, disk, events, all, n - 1, found);
    }
  }

  lemma WaitsOneMore(cfg: Config, disk: Option<Record>, events: seq<Event>, all: seq<Event>, k: nat, found: Record)
    requires k < |all| && all[k].Observe? && !StartsAt(cfg, disk, all, k) && Waits(cfg, disk, events, found, all[..k])
    ensures Waits(cfg, disk, events, found, all[..k + 1])
  {
    assert all[..k + 1][..k] == all[..k];
    WaitsNext(cfg, disk, events, all[..k + 1], found);
  }

  lemma WaitsAtRestart(cfg: Config, disk: Option<Record>, events: seq<Event>)
    ensures Waits(cfg, disk, events, Boot(After(cfg, disk, events).disk).record, events + [Restart])
  {
    AfterAppend(cfg, disk, events, Restart);
    assert (events + [Restart])[..|events|] == events;
    OutlastsStep(cfg, disk, events, events + [Restart]);
  }

  lemma WaitsNext(cfg: Config, disk: Option<Record>, events: seq<Event>, all: seq<Event>, found: Record)
    requires all != [] && Waits(cfg, disk, events, found, all[..|all| - 1])
    requires all[|all| - 1].Observe? && !StartsAt(cfg, disk, all, |all| - 1)
    ensures Waits(cfg, disk, events, found, all)
  {
    IdleSinceStep(After(cfg, disk, all[..|all| - 1]), cfg, all[|all| - 1], found);
    StampAccountedStep(cfg, disk, events, found.drainedSince, all);
  }

  /** With no stale stamp on file, the next start is confirmed. */
  lemma NextStartIsConfirmed(cfg: Config, disk: Option<Record>, events: seq<Event>, all: seq<Event>)
    requires cfg.confirmation >= SECOND && !StaleStamp(cfg, disk, events) && NextStart(cfg, disk, events, all)
    ensures StartConfirmed(cfg, disk, all)
  {
    var found := Boot(After(cfg, disk, events).disk).record;
    WaitsAfterRestart(cfg, disk, events, all, found);
    WaitsOn(cfg, disk, events, all, |events| + 1, |all| - 1, found);
    LastStartIsConfirmed(cfg, disk, events, all, found);
  }

  lemma WaitsAfterRestart(cfg: Config, disk: Option<Record>, events: seq<Event>, all: seq<Event>, found: Record)
    requires events + [Restart] <= all && found == Boot(After(cfg, disk, events).disk).record
    ensures Waits(cfg, disk, events, found, all[..|events| + 1])
  {
    WaitsAtRestart(cfg, disk, events);
    assert all[..|events| + 1] == events + [Restart];
  }

  lemma LastStartIsConfirmed(cfg: Config, disk: Option<Record>, events: seq<Event>, all: seq<Event>, found: Record)
    requires cfg.confirmation >= SECOND && !StaleStamp(cfg, disk, events)
    requires found == Boot(After(cfg, disk, events).disk).record
    requires all != [] && StartsAt(cfg, disk, all, |all| - 1) && Waits(cfg, disk, events, found, all[..|all| - 1])
    ensures StartConfirmed(cfg, disk, all)
  {
    var n := |all| - 1;
    var stamp := StampBeforeStart(After(cfg, disk, all[..n]), cfg, all[n]);
    if Stamped(cfg, disk, all[..n], stamp) {
      var from :| TriggeredSince(cfg, disk, all[..n], from, stamp);
      TriggeredExtends(cfg, disk, all, from, stamp);
      assert Confirmed(cfg, disk, all, from, stamp);
    } else {
      var from, since :| TriggeredSince(cfg, disk, events, from, since) && since + cfg.confirmation <= Earliest(found, cfg);
      OutlastsStep(cfg, disk, events, all);
      assert Confirmed(cfg, disk, all, from, since);
    }
  }

  /** A confirmation time of a second or more takes a stamp from before. */
  lemma StampBeforeStart(m: Manager, cfg: Config, e: Event) returns (stamp: int)
    requires cfg.confirmation >= SECOND && e.Observe? && Starts(m, cfg, e.o, e.first)
    ensures cfg.enabled && !m.running && TriggerOf(e.o).Some? && m.record.drainedSince == At(stamp)
    ensures e.o.now - stamp >= cfg.confirmation && e.o.now >= Earliest(m.record, cfg)
  {
    StartsIffRuleHolds(m, cfg, e.o, e.first);
    stamp := m.record.drainedSince.time;
  }

  /** With a stale stamp, one observation starts a recovery that nothing confirms. */
  lemma StaleStampStarts(cfg: Config, disk: Option<Record>, events: seq<Event>) returns (all: seq<Event>)
    requires cfg.confirmation >= SECOND && StaleStamp(cfg, disk, events)
    ensures NextStart(cfg, disk, events, all) && !StartConfirmed(cfg, disk, all)
  {
    var file := After(cfg, disk, events).disk;
    var e := SeesDrained(Earliest(Boot(file).record, cfg));
    all := events + [Restart] + [e];
    assert all[..|all| - 1] == events + [Restart];
    AfterAppend(cfg, disk, events, Restart);
    SafetyGuardUnreachable(Boot(file), cfg, e.o);
    forall from, since ensures !Confirmed(cfg, disk, all, from, since) {
      if TriggeredSince(cfg, disk, all, from, since) && from < |events| {
        TriggeredEarlier(cfg, disk, events, all, from, since);
      }
    }
  }

  lemma TriggeredEarlier(cfg: Config, disk: Option<Record>, events: seq<Event>, all: seq<Event>, from: int, since: int)
    requires events <= all && TriggeredSince(cfg, disk, all, from, since) && from < |events|
    ensures TriggeredSince(cfg, disk, events, from, since)
  {
    forall k: nat | k < |events| ensures Idle(cfg, disk, events, k) == Idle(cfg, disk, all, k) {
      assert events[..k] == all[..k];
    }
  }

  /** After a restart the next start is confirmed, whatever was written before, if and
      only if the stamp found on file is not stale. */
  lemma ConfirmedExactly(cfg: Config, disk: Option<Record>, events: seq<Event>)
    requires cfg.confirmation >= SECOND
    ensures NextStartsConfirmed(cfg, disk, events) <==> !StaleStamp(cfg, disk, events)
  {
    if StaleStamp(cfg, disk, events) {
      var all := StaleStampStarts(cfg, disk, events);
    } else {
      forall all | NextStart(cfg, disk, events, all) ensures StartConfirmed(cfg, disk, all) {
        NextStartIsConfirmed(cfg, disk, events, all);
      }
    }
  }
}
