/** How far apart recoveries start, over any run of observations, completions and
    restarts, with any of the writes lost. */
module RecoveryCooldown {
  import opened Options
  import opened RecoveryManagement

  /** No start before `floor`. */
  predicate HeldUntil(r: Record, floor: int) {
    r.nextEligibleAt.At? && r.nextEligibleAt.time >= floor
  }

  /** From event `n` on, whatever became of the writes, each restart finds a file that
      holds starts back until `floor`. */
  ghost predicate RestartsHold(cfg: Config, disk: Option<Record>, events: seq<Event>, n: nat, floor: int) {
    forall k :: n <= k < |events| && events[k].Restart? ==> HeldUntil(Boot(After(cfg, disk, events[..k]).disk).record, floor)
  }

  lemma LaterStart(m: Manager, cfg: Config, e: Event, bound: int)
    requires cfg.cooldown >= 0 && HeldUntil(m.record, Truncated(bound))
    requires e.Restart? ==> HeldUntil(Boot(m.disk).record, Truncated(bound))
    ensures HeldUntil(Step(m, cfg, e).record, Truncated(bound))
  {
    StepEligibility(m, cfg, e);
    if e.Observe? {
      TruncatedMonotone(bound, e.o.now + cfg.cooldown, cfg.cooldown);
    }
  }

  lemma {:induction false} HeldOnward(cfg: Config, disk: Option<Record>, events: seq<Event>, n: nat, bound: int)
    requires n <= |events| && cfg.cooldown >= 0 && RestartsHold(cfg, disk, events, n, Truncated(bound))
    requires HeldUntil(After(cfg, disk, events[..n]).record, Truncated(bound))
    ensures HeldUntil(After(cfg, disk, events).record, Truncated(bound))
    decreases |events|
  {
    if n == |events| {
      assert events[..n] == events;
    } else {
      var last := |events| - 1;
      RestartsHoldInPrefix(cfg, disk, events, n, last, Truncated(bound));
      assert events[..last][..n] == events[..n];
      HeldOnward(cfg, disk, events[..last], n, bound);
      HeldThrough(cfg, disk, events, bound);
    }
  }

  lemma HeldThrough(cfg: Config, disk: Option<Record>, events: seq<Event>, bound: int)
    requires events != [] && cfg.cooldown >= 0
    requires var m := After(cfg, disk, events[..|events| - 1]);
             && HeldUntil(m.record, Truncated(bound))
             && (events[|events| - 1].Restart? ==> HeldUntil(Boot(m.disk).record, Truncated(bound)))
    ensures HeldUntil(After(cfg, disk, events).record, Truncated(bound))
  {
    LaterStart(After(cfg, disk, events[..|events| - 1]), cfg, events[|events| - 1], bound);
  }

  lemma RestartsHoldInPrefix(cfg: Config, disk: Option<Record>, events: seq<Event>, n: nat, m: nat, floor: int)
    requires m <= |events| && RestartsHold(cfg, disk, events, n, floor)
    ensures RestartsHold(cfg, disk, events[..m], n, floor)
  {
    forall k | n <= k < m && events[..m][k].Restart?
      ensures HeldUntil(Boot(After(cfg, disk, events[..m][..k]).disk).record, floor)
    {
      assert events[..m][..k] == events[..k];
    }
  }

  /** Not before the truncated time, so the cooldown after it ends later still. */
  lemma TruncatedMonotone(a: int, b: int, cooldown: int)
    requires cooldown >= 0
    ensures Truncated(a) <= b - cooldown ==> Truncated(a) <= Truncated(b)
  {
    if Truncated(a) <= b {
      assert Truncated(Truncated(a)) == Truncated(a);
      assert Truncated(a) / SECOND <= b / SECOND;
    }
  }

  /** Two recoveries start at least the cooldown apart, up to the truncation to seconds,
      over any run of observations, completions and restarts, with any writes lost, as
      long as each restart between them finds a file that still holds starts back. A
      run without restarts needs no write to succeed. */
  lemma CooldownBetweenStarts(cfg: Config, disk: Option<Record>, events: seq<Event>, i: nat, j: nat)
    requires i < j < |events| && cfg.cooldown >= 0
    requires StartsAt(cfg, disk, events, i) && StartsAt(cfg, disk, events, j)
    requires RestartsHold(cfg, disk, events[..j], i + 1, Truncated(events[i].o.now + cfg.cooldown))
    ensures events[j].o.now >= Truncated(events[i].o.now + cfg.cooldown)
    ensures events[j].o.now > events[i].o.now + cfg.cooldown - SECOND
  {
    HeldFromStart(cfg, disk, events, i);
    HeldAt(cfg, disk, events, i + 1, j, events[i].o.now + cfg.cooldown);
    StartWaits(After(cfg, disk, events[..j]), cfg, events[j], events[i].o.now + cfg.cooldown);
  }

  lemma HeldAt(cfg: Config, disk: Option<Record>, events: seq<Event>, n: nat, j: nat, bound: int)
    requires n <= j <= |events| && cfg.cooldown >= 0 && RestartsHold(cfg, disk, events[..j], n, Truncated(bound))
    requires HeldUntil(After(cfg, disk, events[..n]).record, Truncated(bound))
    ensures HeldUntil(After(cfg, disk, events[..j]).record, Truncated(bound))
  {
    assert events[..j][..n] == events[..n];
    HeldOnward(cfg, disk, events[..j], n, bound);
  }

  lemma StartWaits(m: Manager, cfg: Config, e: Event, bound: int)
    requires e.Observe? && Starts(m, cfg, e.o, e.first) && HeldUntil(m.record, Truncated(bound))
    ensures e.o.now >= Truncated(bound) && e.o.now > bound - SECOND
  {
    StepEligibility(m, cfg, e);
  }

  lemma HeldFromStart(cfg: Config, disk: Option<Record>, events: seq<Event>, i: nat)
    requires i < |events| && StartsAt(cfg, disk, events, i)
    ensures HeldUntil(After(cfg, disk, events[..i + 1]).record, Truncated(events[i].o.now + cfg.cooldown))
  {
    assert events[..i + 1][..i] == events[..i];
    StepEligibility(After(cfg, disk, events[..i]), cfg, events[i]);
  }

  /** The file shows the next eligible time of the record. */
  predicate EligibilityKept(m: Manager) { Boot(m.disk).record.nextEligibleAt == m.record.nextEligibleAt }

  ghost predicate RestartsKeep(cfg: Config, disk: Option<Record>, events: seq<Event>, n: nat) {
    forall k :: n <= k < |events| && events[k].Restart? ==> EligibilityKept(After(cfg, disk, events[..k]))
  }

  /** What can be compared at a restart is enough: from a start on, the file may lag
      behind in everything but the next eligible time, and only at restarts. */
  lemma {:induction false} KeptEligibilityHolds(cfg: Config, disk: Option<Record>, events: seq<Event>, n: nat, bound: int)
    requires n <= |events| && cfg.cooldown >= 0 && RestartsKeep(cfg, disk, events, n)
    requires HeldUntil(After(cfg, disk, events[..n]).record, Truncated(bound))
    ensures RestartsHold(cfg, disk, events, n, Truncated(bound))
    decreases |events|
  {
    if n < |events| {
      var last := |events| - 1;
      assert events[..last][..n] == events[..n];
      KeepInPrefix(cfg, disk, events, n);
      KeptEligibilityHolds(cfg, disk, events[..last], n, bound);
      HeldOnward(cfg, disk, events[..last], n, bound);
      HoldWithLast(cfg, disk, events, n, Truncated(bound));
    }
  }

  lemma KeepInPrefix(cfg: Config, disk: Option<Record>, events: seq<Event>, n: nat)
    requires n < |events| && RestartsKeep(cfg, disk, events, n)
    ensures RestartsKeep(cfg, disk, events[..|events| - 1], n)
    ensures events[|events| - 1].Restart? ==> EligibilityKept(After(cfg, disk, events[..|events| - 1]))
  {
    var last := |events| - 1;
    forall k | n <= k < last && events[..last][k].Restart? ensures EligibilityKept(After(cfg, disk, events[..last][..k])) {
      assert events[..last][..k] == events[..k];
    }
  }

  lemma HoldWithLast(cfg: Config, disk: Option<Record>, events: seq<Event>, n: nat, floor: int)
    requires n < |events| && RestartsHold(cfg, disk, events[..|events| - 1], n, floor)
    requires events[|events| - 1].Restart? ==> HeldUntil(Boot(After(cfg, disk, events[..|events| - 1]).disk).record, floor)
    ensures RestartsHold(cfg, disk, events, n, floor)
  {
    var last := |events| - 1;
    forall k | n <= k < |events| && events[k].Restart?
      ensures HeldUntil(Boot(After(cfg, disk, events[..k]).disk).record, floor)
    {
      assert k < last ==> events[..last][..k] == events[..k] && events[..last][k].Restart?;
    }
  }

  // ---- Exactly when a restart can lose the cooldown ----

  ghost predicate NotBefore(events: seq<Event>, clock: int) {
    forall k :: 0 <= k < |events| && events[k].Observe? ==> events[k].o.now >= clock
  }

  /** No run of the agent booted from `disk`, observing at or after `clock`, starts a
      recovery before `floor`, unless a further restart loses it. */
  ghost predicate NoEarlyStart(cfg: Config, disk: Option<Record>, clock: int, floor: int) {
    forall events: seq<Event>, j: nat ::
      j < |events| && NotBefore(events, clock) && RestartsHold(cfg, disk, events, 0, floor) && StartsAt(cfg, disk, events, j) ==>
        events[j].o.now >= floor
  }

  /** What the file must say for that to fail: it does not hold starts back until
      `floor`, and the condition, noted at `clock` or already on file, can be confirmed
      before. */
  predicate MayStartEarly(found: Record, cfg: Config, clock: int, floor: int) {
    && cfg.enabled && clock < floor && !HeldUntil(found, floor)
    && (|| Truncated(clock) + cfg.confirmation < floor
        || (found.drainedSince.At? && found.drainedSince.time + cfg.confirmation < floor))
  }

  /** Held back, or still waiting on what was found at boot or noted since. */
  predicate Waiting(r: Record, found: Record, clock: int, floor: int) {
    || HeldUntil(r, floor)
    || (&& r.nextEligibleAt == found.nextEligibleAt
        && (r.drainedSince.At? ==> r.drainedSince == found.drainedSince || r.drainedSince.time >= Truncated(clock)))
  }

  lemma TruncatedOrder(a: int, b: int)
    requires a <= b
    ensures Truncated(a) <= Truncated(b)
  {
    assert a / SECOND <= b / SECOND;
  }

  lemma NoEarlyStep(m: Manager, cfg: Config, o: Observation, first: bool, found: Record, clock: int, floor: int)
    requires !MayStartEarly(found, cfg, clock, floor) && Waiting(m.record, found, clock, floor)
    requires o.now >= clock && Starts(m, cfg, o, first)
    ensures o.now >= floor
  {
    StartsIffRuleHolds(m, cfg, o, first);
    TruncatedOrder(clock, o.now);
  }

  lemma StepWaiting(m: Manager, cfg: Config, e: Event, found: Record, clock: int, bound: int)
    requires !MayStartEarly(found, cfg, clock, Truncated(bound)) && Waiting(m.record, found, clock, Truncated(bound))
    requires cfg.cooldown >= 0 && (e.Observe? ==> e.o.now >= clock)
    requires e.Restart? ==> HeldUntil(Boot(m.disk).record, Truncated(bound))
    ensures Waiting(Step(m, cfg, e).record, found, clock, Truncated(bound))
  {
    StepEligibility(m, cfg, e);
    if HeldUntil(m.record, Truncated(bound)) {
      LaterStart(m, cfg, e, bound);
    } else if e.Observe? {
      TruncatedOrder(clock, e.o.now);
      if Starts(m, cfg, e.o, e.first) {
        NoEarlyStep(m, cfg, e.o, e.first, found, clock, Truncated(bound));
        TruncatedMonotone(bound, e.o.now + cfg.cooldown, cfg.cooldown);
      } else {
        StepSince(m, cfg, e);
      }
    } else {
      StepSince(m, cfg, e);
    }
  }

  lemma {:induction false} RunWaiting(cfg: Config, disk: Option<Record>, events: seq<Event>, clock: int, bound: int)
    requires !MayStartEarly(Boot(disk).record, cfg, clock, Truncated(bound)) && cfg.cooldown >= 0
    requires NotBefore(events, clock) && RestartsHold(cfg, disk, events, 0, Truncated(bound))
    ensures Waiting(After(cfg, disk, events).record, Boot(disk).record, clock, Truncated(bound))
  {
    if events != [] {
      var n := |events| - 1;
      RestartsHoldInPrefix(cfg, disk, events, 0, n, Truncated(bound));
      RunWaiting(cfg, disk, events[..n], clock, bound);
      StepWaiting(After(cfg, disk, events[..n]), cfg, events[n], Boot(disk).record, clock, bound);
    }
  }

  /** A file that does not hold back is followed by an early start: at once when its
      stamp is old enough, otherwise on a condition noted afresh at `clock`. */
  lemma EarlyStart(cfg: Config, disk: Option<Record>, clock: int, floor: int) returns (events: seq<Event>, j: nat)
    requires MayStartEarly(Boot(disk).record, cfg, clock, floor)
    ensures j < |events| && NotBefore(events, clock) && RestartsHold(cfg, disk, events, 0, floor)
    ensures StartsAt(cfg, disk, events, j) && events[j].o.now < floor
  {
    var found := Boot(disk).record;
    if found.drainedSince.At? && found.drainedSince.time + cfg.confirmation < floor {
      events, j := [SeesDrained(floor - 1)], 0;
      assert events[..0] == [];
      SafetyGuardUnreachable(Boot(disk), cfg, events[0].o);
    } else {
      events, j := FreshStart(cfg, disk, clock, floor);
    }
  }

  lemma FreshStart(cfg: Config, disk: Option<Record>, clock: int, floor: int) returns (events: seq<Event>, j: nat)
    requires cfg.enabled && clock < floor && !HeldUntil(Boot(disk).record, floor)
    requires Truncated(clock) + cfg.confirmation < floor
    ensures j < |events| && NotBefore(events, clock) && RestartsHold(cfg, disk, events, 0, floor)
    ensures StartsAt(cfg, disk, events, j) && events[j].o.now < floor
  {
    var e0, e1, e2 := SeesWell(clock), SeesDrained(clock), SeesDrained(floor - 1);
    events := [e0, e1, e2];
    assert events[..0] == [] && events[..1] == [] + [e0] && events[..2] == [] + [e0] + [e1];
    var m1 := After(cfg, disk, [] + [e0]);
    AfterAppend(cfg, disk, [], e0);
    WellClears(Boot(disk), cfg, clock);
    if Starts(m1, cfg, e1.o, true) {
      j := 1;
    } else {
      var m2 := After(cfg, disk, [] + [e0] + [e1]);
      AfterAppend(cfg, disk, [] + [e0], e1);
      DrainedNotes(m1, cfg, clock);
      SafetyGuardUnreachable(m2, cfg, e2.o);
      j := 2;
    }
  }

  lemma WellClears(m: Manager, cfg: Config, now: int)
    requires !m.running
    ensures var m' := Step(m, cfg, SeesWell(now));
            !m'.running && m'.record.drainedSince.Blank? && m'.record.nextEligibleAt == m.record.nextEligibleAt
  {
  }

  lemma DrainedNotes(m: Manager, cfg: Config, now: int)
    requires !m.running && m.record.drainedSince.Blank? && !Starts(m, cfg, SeesDrained(now).o, true)
    ensures var m' := Step(m, cfg, SeesDrained(now));
            !m'.running && m'.record.drainedSince == Format(now) && m'.record.nextEligibleAt == m.record.nextEligibleAt
  {
  }

  /** Whatever was or was not written: the agent booted from a file cannot start before
      `bound`, truncated, if and only if what the file says does not allow it. */
  lemma NoEarlyStartExactly(cfg: Config, disk: Option<Record>, clock: int, bound: int)
    requires cfg.cooldown >= 0
    ensures NoEarlyStart(cfg, disk, clock, Truncated(bound)) <==> !MayStartEarly(Boot(disk).record, cfg, clock, Truncated(bound))
  {
    var floor := Truncated(bound);
    if MayStartEarly(Boot(disk).record, cfg, clock, floor) {
      var events, j := EarlyStart(cfg, disk, clock, floor);
    } else {
      forall events: seq<Event>, j: nat |
        j < |events| && NotBefore(events, clock) && RestartsHold(cfg, disk, events, 0, floor) && StartsAt(cfg, disk, events, j)
        ensures events[j].o.now >= floor
      {
        RestartsHoldInPrefix(cfg, disk, events, 0, j, floor);
        RunWaiting(cfg, disk, events[..j], clock, bound);
        NoEarlyStep(After(cfg, disk, events[..j]), cfg, events[j].o, events[j].first, Boot(disk).record, clock, floor);
      }
    }
  }

  /** At a restart that ends the run `events`, whatever was or was not written before:
      no recovery of the run that goes on starts before the truncated `bound`, such as
      the end of an earlier start's cooldown, if and only if the file found does not
      allow it. (A run goes on after a restart as one booted from the file found.) */
  lemma CooldownExactly(cfg: Config, disk: Option<Record>, events: seq<Event>, rest: seq<Event>, clock: int, bound: int)
    requires cfg.cooldown >= 0
    ensures After(cfg, disk, events + [Restart] + rest) == After(cfg, After(cfg, disk, events).disk, rest)
    ensures NoEarlyStart(cfg, After(cfg, disk, events).disk, clock, Truncated(bound)) <==>
            !MayStartEarly(Boot(After(cfg, disk, events).disk).record, cfg, clock, Truncated(bound))
  {
    NoEarlyStartExactly(cfg, After(cfg, disk, events).disk, clock, bound);
    RunSplits(cfg, disk, events, rest);
  }

  /** A concrete loss: if the write at a start fails
      and the agent restarts, the next heartbeat starts again. `o` is any triggering
      observation made long enough after the stamp on disk. */
  lemma LostStartIsRepeated(cfg: Config, r: Record, o: Observation, later: Observation)
    requires cfg.enabled && TriggerOf(o).Some? && TriggerOf(later).Some?
    requires r.drainedSince.At? && o.now - r.drainedSince.time >= cfg.confirmation && r.nextEligibleAt.Blank?
    requires o.now <= later.now
    ensures var events := [Observe(o, true, false), Restart, Observe(later, true, true)];
            StartsAt(cfg, Some(r), events, 0) && StartsAt(cfg, Some(r), events, 2)
  {
    var e0, e1, e2 := Observe(o, true, false), Restart, Observe(later, true, true);
    var events := [e0, e1, e2];
    assert events[..0] == [] && events[..1] == [e0] && events[..2] == [e0, e1];
    assert [e0, e1][..1] == [e0] && [e0][..0] == [];
    SafetyGuardUnreachable(Boot(Some(r)), cfg, o);
    assert After(cfg, Some(r), [e0]).disk == Some(r);
    assert After(cfg, Some(r), [e0, e1]) == Boot(Some(r));
    SafetyGuardUnreachable(Boot(Some(r)), cfg, later);
  }
}
