/** The DoubleZero recovery manager of the gate agent: a lock-protected record that
    is written to disk at each change and read back when the agent starts.
    `DoubleZeroRecoveryManager` is the program's object; `Step` says what one
    observation, one completed recovery or one restart does, and the run lemmas say
    what holds over any sequence of those. Times are nanoseconds. */
module RecoveryManagement {
  import opened Options

  const SECOND := 1_000_000_000

  /** A timestamp field: empty, not a timestamp, or a time in whole seconds. */
  datatype Stamp = Blank | Unparsable | At(time: int)

  function Truncated(t: int): (r: int)
    ensures t - SECOND < r <= t
  {
    (t / SECOND) * SECOND
  }

  function Format(t: int): Stamp { At(Truncated(t)) }

  /** The texts the manager writes; a file on disk may hold any other text. */
  datatype State = NotRequired | Observing | ManualRequired | Cooldown | InProgress | Succeeded | Failed | OtherState(text: string)

  datatype Reason =
    | Ready | DeviceDrained | BgpSessionFailed | ReconnectRunning | RecoveryDisabled | FailedCooldown | ReconnectCooldown | SafetyGuard
    | CurrentDeviceUnknown | DeviceStatusUnknown | NotReadyNotDrained | Restored | OtherReason(text: string)

  datatype Outcome = NoOutcome | SuccessOutcome | FailureOutcome | OtherOutcome(text: string)

  datatype Stage = NoStage | Scheduled | Verified | OtherStage(text: string)

  datatype Record = Record(
    state: State, reason: Reason, drainedSince: Stamp,
    lastAttemptAt: Stamp, lastCompletedAt: Stamp,
    lastOutcome: Outcome, lastStage: Stage, lastError: string,
    beforeDevice: string, afterDevice: string, nextEligibleAt: Stamp)

  const INITIAL := Record(NotRequired, Ready, Blank, Blank, Blank, NoOutcome, NoStage, "", "", "", Blank)

  datatype Config = Config(enabled: bool, confirmation: int, cooldown: int)

  /** What a heartbeat learns before it takes the lock. */
  datatype Observation = Observation(
    now: int, currentDevice: string, tunnelStatus: TunnelStatus, routesReady: bool, deviceState: DeviceState)

  datatype TunnelStatus = SessionUp | SessionFailed | OtherStatus(text: string)

  datatype DeviceState = Unknown | Drained | OtherDeviceState(text: string)

  /** `disk` is the readable file, `active` the number of recoveries in progress. */
  datatype Manager = Manager(record: Record, running: bool, disk: Option<Record>, active: nat)

  function Boot(disk: Option<Record>): Manager {
    Manager(if disk.Some? then disk.value else INITIAL, false, disk, 0)
  }

  predicate IsSpace(c: char) { c == ' ' || c == '\t' || c == '\n' || c == '\r' }

  predicate NotBlank(s: string) { exists i :: 0 <= i < |s| && !IsSpace(s[i]) }

  /** What starts a recovery: a drained device, or a failed session on a known one. */
  function TriggerOf(o: Observation): Option<Reason> {
    if o.deviceState == Drained then Some(DeviceDrained)
    else if o.tunnelStatus == SessionFailed && NotBlank(o.currentDevice) then Some(BgpSessionFailed)
    else None
  }

  predicate Healthy(o: Observation) {
    o.tunnelStatus == SessionUp && o.routesReady && o.deviceState != Drained
  }

  predicate ShouldStart(record: Record, trigger: Option<Reason>, enabled: bool, running: bool, now: int, confirmation: int) {
    && enabled && !running
    && (trigger == Some(DeviceDrained) || trigger == Some(BgpSessionFailed))
    && record.drainedSince.At? && now - record.drainedSince.time >= confirmation
    && !(record.nextEligibleAt.At? && now < record.nextEligibleAt.time)
  }

  // ---- The specification of each step ----

  /** `stored` says whether the write to disk succeeds; a failed one leaves the old file. */
  function Persisted(m: Manager, stored: bool): Manager {
    if stored then m.(disk := Some(m.record)) else m
  }

  function Transition(m: Manager, state: State, reason: Reason, since: Stamp, stored: bool): Manager {
    if m.record.state == state && m.record.reason == reason && m.record.drainedSince == since then m
    else Persisted(m.(record := m.record.(state := state, reason := reason, drainedSince := since)), stored)
  }

  function Started(r: Record, now: int, device: string, cooldown: int): Record {
    r.(state := InProgress, reason := ReconnectRunning,
       lastAttemptAt := Format(now), lastCompletedAt := Blank, lastOutcome := NoOutcome,
       lastStage := Scheduled, lastError := "", beforeDevice := device, afterDevice := "",
       nextEligibleAt := Format(now + cooldown))
  }

  function ManualReason(o: Observation): Reason {
    if o.currentDevice == "" then CurrentDeviceUnknown
    else if o.deviceState == Unknown then DeviceStatusUnknown
    else NotReadyNotDrained
  }

  /** The record once a trigger has been noted: the first one stamps the condition. */
  function Noted(m: Manager, o: Observation, stored: bool): Manager
    requires TriggerOf(o).Some?
  {
    if m.record.drainedSince.Blank?
    then Transition(m, Observing, TriggerOf(o).value, Format(o.now), stored) else m
  }

  datatype Verdict = Stay(state: State, reason: Reason) | Start

  /** What a heartbeat decides once a trigger has been noted. */
  function Judge(m: Manager, cfg: Config, o: Observation): Verdict
    requires TriggerOf(o).Some?
  {
    var since, next := m.record.drainedSince, m.record.nextEligibleAt;
    if !cfg.enabled then Stay(ManualRequired, RecoveryDisabled)
    else if next.At? && o.now < next.time then
      if m.record.lastOutcome == FailureOutcome then Stay(Failed, FailedCooldown) else Stay(Cooldown, ReconnectCooldown)
    else if !since.At? || o.now - since.time < cfg.confirmation then Stay(Observing, TriggerOf(o).value)
    else if !ShouldStart(m.record, TriggerOf(o), cfg.enabled, m.running, o.now, cfg.confirmation) then
      Stay(ManualRequired, SafetyGuard)
    else Start
  }

  function Act(m: Manager, cfg: Config, o: Observation, verdict: Verdict, stored: bool): Manager {
    match verdict
    case Stay(state, reason) => Transition(m, state, reason, m.record.drainedSince, stored)
    case Start =>
      Persisted(m.(running := true, active := m.active + 1,
                   record := Started(m.record, o.now, o.currentDevice, cfg.cooldown)), stored)
  }

  /** One heartbeat: `first` and `second` are the outcomes of its writes to disk. */
  function Observed(m: Manager, cfg: Config, o: Observation, first: bool, second: bool): Manager {
    if m.running then Transition(m, InProgress, ReconnectRunning, m.record.drainedSince, first)
    else if Healthy(o) then Transition(m, NotRequired, Ready, Blank, first)
    else if TriggerOf(o).None? then Transition(m, ManualRequired, ManualReason(o), Blank, first)
    else Act(Noted(m, o, first), cfg, o, Judge(Noted(m, o, first), cfg, o), second)
  }

  /** The heartbeat starts a recovery. */
  predicate Starts(m: Manager, cfg: Config, o: Observation, first: bool) {
    && !m.running && !Healthy(o) && TriggerOf(o).Some?
    && Judge(Noted(m, o, first), cfg, o).Start?
  }

  /** How a recovery ended: the device found afterwards, and stage and message of a failure. */
  datatype Ending = Ending(afterDevice: string, failure: Option<(Stage, string)>)

  function Completed(m: Manager, now: int, ending: Ending, stored: bool): Manager {
    var r := m.record.(lastCompletedAt := Format(now), afterDevice := ending.afterDevice);
    var r' := match ending.failure
      case None => r.(state := Succeeded, reason := Restored,
                      lastOutcome := SuccessOutcome, lastStage := Verified, lastError := "", drainedSince := Blank)
      case Some((stage, message)) => r.(state := Failed, reason := FailedCooldown,
                                        lastOutcome := FailureOutcome, lastStage := stage, lastError := message);
    Persisted(m.(running := false, record := r', active := if m.active == 0 then 0 else m.active - 1), stored)
  }

  class DoubleZeroRecoveryManager {
    const cfg: Config
    var record: Record
    var running: bool
    var disk: Option<Record>
    ghost var active: nat

    ghost function Contents(): Manager
      reads this
    {
      Manager(record, running, disk, active)
    }

    constructor (cfg: Config, disk: Option<Record>)
      ensures Contents() == Boot(disk) && this.cfg == cfg
    {
      this.cfg := cfg;
      this.disk := disk;
      record := if disk.Some? then disk.value else INITIAL;
      running := false;
      active := 0;
    }

    method PersistLocked(stored: bool)
      modifies this`disk
      ensures Contents() == Persisted(old(Contents()), stored)
    {
      if stored {
        disk := Some(record);
      }
    }

    method TransitionLocked(state: State, reason: Reason, since: Stamp, stored: bool)
      modifies this`record, this`disk
      ensures Contents() == Transition(old(Contents()), state, reason, since, stored)
    {
      if record.state == state && record.reason == reason && record.drainedSince == since {
        return;
      }
      record := record.(state := state, reason := reason, drainedSince := since);
      PersistLocked(stored);
    }

    method Observe(o: Observation, first: bool, second: bool) returns (started: bool)
      modifies this
      ensures Contents() == Observed(old(Contents()), cfg, o, first, second)
      ensures started == Starts(old(Contents()), cfg, o, first)
    {
      started := false;
      if running {
        TransitionLocked(InProgress, ReconnectRunning, record.drainedSince, first);
        return;
      }
      if Healthy(o) {
        var changed := record.state != NotRequired || record.reason != Ready || record.drainedSince != Blank;
        record := record.(state := NotRequired, reason := Ready, drainedSince := Blank);
        if changed {
          PersistLocked(first);
        }
        return;
      }
      var trigger := TriggerOf(o);
      if trigger.None? {
        TransitionLocked(ManualRequired, ManualReason(o), Blank, first);
        return;
      }
      if record.drainedSince == Blank {
        TransitionLocked(Observing, trigger.value, Format(o.now), first);
      }
      if !cfg.enabled {
        TransitionLocked(ManualRequired, RecoveryDisabled, record.drainedSince, second);
        return;
      }
      if record.nextEligibleAt.At? && o.now < record.nextEligibleAt.time {
        if record.lastOutcome == FailureOutcome {
          TransitionLocked(Failed, FailedCooldown, record.drainedSince, second);
        } else {
          TransitionLocked(Cooldown, ReconnectCooldown, record.drainedSince, second);
        }
        return;
      }
      if !record.drainedSince.At? || o.now - record.drainedSince.time < cfg.confirmation {
        TransitionLocked(Observing, trigger.value, record.drainedSince, second);
        return;
      }
      if !ShouldStart(record, trigger, cfg.enabled, running, o.now, cfg.confirmation) {
        assert false;  // the safety guard of the program cannot be reached
      }
      running := true;
      record := Started(record, o.now, o.currentDevice, cfg.cooldown);
      PersistLocked(second);
      active := active + 1;
      started := true;
    }

    /** The end of `runRecovery`. */
    method Complete(now: int, ending: Ending, stored: bool)
      modifies this
      ensures Contents() == Completed(old(Contents()), now, ending, stored)
    {
      running := false;
      record := record.(lastCompletedAt := Format(now), afterDevice := ending.afterDevice);
      match ending.failure {
        case None =>
          record := record.(state := Succeeded, reason := Restored,
                            lastOutcome := SuccessOutcome, lastStage := Verified, lastError := "", drainedSince := Blank);
        case Some((stage, message)) =>
          record := record.(state := Failed, reason := FailedCooldown,
                            lastOutcome := FailureOutcome, lastStage := stage, lastError := message);
      }
      PersistLocked(stored);
      active := if active == 0 then 0 else active - 1;
    }
  }

  // ---- One observation ----

  /** A heartbeat starts a recovery exactly when none is running and the start rule
      holds of the record with the condition stamped: none of the other branches
      refuses a start the rule allows, and none allows one it refuses. */
  lemma StartsIffRuleHolds(m: Manager, cfg: Config, o: Observation, first: bool)
    ensures Starts(m, cfg, o, first) <==>
            !m.running && TriggerOf(o).Some? && ShouldStart(Noted(m, o, first).record, TriggerOf(o), cfg.enabled, false, o.now, cfg.confirmation)
  {
  }

  /** The safety-guard branch is dead: whenever the earlier checks pass, the rule holds. */
  lemma SafetyGuardUnreachable(m: Manager, cfg: Config, o: Observation)
    requires !m.running && TriggerOf(o).Some? && cfg.enabled
    requires !(m.record.nextEligibleAt.At? && o.now < m.record.nextEligibleAt.time)
    requires m.record.drainedSince.At? && o.now - m.record.drainedSince.time >= cfg.confirmation
    ensures ShouldStart(m.record, TriggerOf(o), cfg.enabled, m.running, o.now, cfg.confirmation)
    ensures Judge(m, cfg, o) == Start
  {
  }

  // ---- Runs ----

  datatype Event =
    | Observe(o: Observation, first: bool, second: bool)
    | Complete(now: int, ending: Ending, stored: bool)  // happens only while a recovery is in progress
    | Restart

  function Step(m: Manager, cfg: Config, e: Event): Manager {
    match e
    case Observe(o, first, second) => Observed(m, cfg, o, first, second)
    case Complete(now, ending, stored) => if m.active == 0 then m else Completed(m, now, ending, stored)
    case Restart => Boot(m.disk)
  }

  function After(cfg: Config, disk: Option<Record>, events: seq<Event>): Manager {
    if events == [] then Boot(disk)
    else Step(After(cfg, disk, events[..|events| - 1]), cfg, events[|events| - 1])
  }

  /** Event `i` of the run starts a recovery. */
  predicate StartsAt(cfg: Config, disk: Option<Record>, events: seq<Event>, i: nat)
    requires i < |events|
  {
    && events[i].Observe?
    && Starts(After(cfg, disk, events[..i]), cfg, events[i].o, events[i].first)
  }

  lemma StepActive(m: Manager, cfg: Config, e: Event)
    requires m.active <= 1 && (m.running <==> m.active == 1)
    ensures var m' := Step(m, cfg, e); m'.active <= 1 && (m'.running <==> m'.active == 1)
  {
  }

  /** At most one recovery is ever in progress, and `running` says whether one is. */
  lemma {:induction false} AtMostOneActive(cfg: Config, disk: Option<Record>, events: seq<Event>)
    ensures var m := After(cfg, disk, events); m.active <= 1 && (m.running <==> m.active == 1)
  {
    if events != [] {
      AtMostOneActive(cfg, disk, events[..|events| - 1]);
      StepActive(After(cfg, disk, events[..|events| - 1]), cfg, events[|events| - 1]);
    }
  }

  predicate Stored(e: Event) {
    (e.Observe? ==> e.first && e.second) && (e.Complete? ==> e.stored)
  }

  ghost predicate AllStored(events: seq<Event>) {
    forall e :: e in events ==> Stored(e)
  }

  lemma StepDisk(m: Manager, cfg: Config, e: Event)
    requires Stored(e) && Boot(m.disk).record == m.record
    ensures var m' := Step(m, cfg, e); Boot(m'.disk).record == m'.record
  {
  }

  /** While writes succeed, a restart brings back the record the process held. */
  lemma {:induction false} DiskIsRecord(cfg: Config, disk: Option<Record>, events: seq<Event>)
    requires AllStored(events)
    ensures var m := After(cfg, disk, events); Boot(m.disk).record == m.record
  {
    if events != [] {
      var init, last := events[..|events| - 1], events[|events| - 1];
      DiskIsRecord(cfg, disk, init);
      StepDisk(After(cfg, disk, init), cfg, last);
    }
  }

  lemma AfterAppend(cfg: Config, disk: Option<Record>, events: seq<Event>, e: Event)
    ensures After(cfg, disk, events + [e]) == Step(After(cfg, disk, events), cfg, e)
  {
    assert (events + [e])[..|events|] == events;
  }

  /** Only a start sets the next eligible time; a restart takes it from the file. */
  lemma StepEligibility(m: Manager, cfg: Config, e: Event)
    ensures Step(m, cfg, e).record.nextEligibleAt ==
            if e.Restart? then Boot(m.disk).record.nextEligibleAt
            else if e.Observe? && Starts(m, cfg, e.o, e.first) then Format(e.o.now + cfg.cooldown)
            else m.record.nextEligibleAt
    ensures e.Observe? && Starts(m, cfg, e.o, e.first) && m.record.nextEligibleAt.At? ==>
              m.record.nextEligibleAt.time <= e.o.now
  {
  }

  /** How one step treats the stamp: set by a trigger, kept, cleared, or read back. */
  lemma StepSince(m: Manager, cfg: Config, e: Event)
    ensures var since := Step(m, cfg, e).record.drainedSince;
            since.At? ==>
              && (e.Observe? && !m.running ==> TriggerOf(e.o).Some?)
              && (if e.Restart? then since == Boot(m.disk).record.drainedSince
                  else if e.Observe? && !m.running && m.record.drainedSince.Blank? then since == Format(e.o.now)
                  else since == m.record.drainedSince)
  {
  }

  function SeesDrained(now: int): Event { Observe(Observation(now, "", SessionUp, true, Drained), true, true) }

  function SeesWell(now: int): Event { Observe(Observation(now, "", SessionUp, true, Unknown), true, true) }

  lemma {:induction false} RunSplits(cfg: Config, disk: Option<Record>, events: seq<Event>, rest: seq<Event>)
    ensures After(cfg, disk, events + [Restart] + rest) == After(cfg, After(cfg, disk, events).disk, rest)
  {
    var all := events + [Restart] + rest;
    if rest == [] {
      assert all == events + [Restart] && all[..|all| - 1] == events;
    } else {
      RunSplits(cfg, disk, events, rest[..|rest| - 1]);
      assert all[..|all| - 1] == events + [Restart] + rest[..|rest| - 1];
      SameLast(cfg, disk, all, After(cfg, disk, events).disk, rest);
    }
  }

  lemma SameLast(cfg: Config, disk: Option<Record>, a: seq<Event>, file: Option<Record>, b: seq<Event>)
    requires a != [] && b != [] && a[|a| - 1] == b[|b| - 1]
    requires After(cfg, disk, a[..|a| - 1]) == After(cfg, file, b[..|b| - 1])
    ensures After(cfg, disk, a) == After(cfg, file, b)
  {
  }
}
