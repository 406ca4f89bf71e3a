/** What the recovery manager reports: state, reason and stamp after each heartbeat and
    each end of a recovery, said of what was observed and of the record before. */
module RecoveryReports {
  import opened Options
  import opened RecoveryManagement

  /** Stamps are whole seconds: the last one not after the time. */
  lemma StampsAreSeconds(t: int)
    ensures Truncated(t) % SECOND == 0 && t - SECOND < Truncated(t) <= t
  {
    assert (t / SECOND) * SECOND % SECOND == 0;
  }

  predicate SeesWell(o: Observation) { o.tunnelStatus == SessionUp && o.routesReady && o.deviceState != Drained }

  /** A drained device, or a failed session on a device whose name is known. */
  predicate SeesTrigger(o: Observation) {
    o.deviceState == Drained || (o.tunnelStatus == SessionFailed && NotBlank(o.currentDevice))
  }

  /** The condition's stamp, as this heartbeat finds it or sets it. */
  function StampAt(r: Record, o: Observation): Stamp {
    if r.drainedSince == Blank then At(Truncated(o.now)) else r.drainedSince
  }

  predicate CoolsDown(r: Record, now: int) { r.nextEligibleAt.At? && now < r.nextEligibleAt.time }

  predicate LastsLongEnough(r: Record, cfg: Config, o: Observation) {
    StampAt(r, o).At? && o.now - StampAt(r, o).time >= cfg.confirmation
  }

  predicate StartsNow(m: Manager, cfg: Config, o: Observation) {
    !m.running && SeesTrigger(o) && cfg.enabled && !CoolsDown(m.record, o.now) && LastsLongEnough(m.record, cfg, o)
  }

  predicate Says(r: Record, state: State, reason: Reason) { r.state == state && r.reason == reason }

  /** Each report, with the exact condition for it; `r'` is the record afterwards. */
  predicate Reported(m: Manager, cfg: Config, o: Observation, r': Record) {
    var r := m.record;
    var acts := !m.running && SeesTrigger(o);
    var manual := !m.running && !SeesWell(o) && !SeesTrigger(o);
    var judged := acts && cfg.enabled && !CoolsDown(r, o.now);
    && (Says(r', InProgress, ReconnectRunning) <==> m.running || StartsNow(m, cfg, o))
    && (Says(r', NotRequired, Ready) <==> !m.running && SeesWell(o))
    && (Says(r', ManualRequired, CurrentDeviceUnknown) <==> manual && o.currentDevice == "")
    && (Says(r', ManualRequired, DeviceStatusUnknown) <==> manual && o.currentDevice != "" && o.deviceState == Unknown)
    && (Says(r', ManualRequired, NotReadyNotDrained) <==> manual && o.currentDevice != "" && o.deviceState != Unknown)
    && (Says(r', ManualRequired, RecoveryDisabled) <==> acts && !cfg.enabled)
    && (Says(r', Failed, FailedCooldown) <==> acts && cfg.enabled && CoolsDown(r, o.now) && r.lastOutcome == FailureOutcome)
    && (Says(r', Cooldown, ReconnectCooldown) <==> acts && cfg.enabled && CoolsDown(r, o.now) && r.lastOutcome != FailureOutcome)
    && (Says(r', Observing, DeviceDrained) <==> judged && !LastsLongEnough(r, cfg, o) && o.deviceState == Drained)
    && (Says(r', Observing, BgpSessionFailed) <==> judged && !LastsLongEnough(r, cfg, o) && o.deviceState != Drained)
    && !Says(r', ManualRequired, SafetyGuard)
  }

  /** A heartbeat that sees a trigger notes the condition, and then stays in the state its
      verdict names or starts. */
  lemma TriggerActs(m: Manager, cfg: Config, o: Observation, first: bool, second: bool)
    requires !m.running && SeesTrigger(o)
    ensures var r, m' := m.record, Step(m, cfg, Observe(o, first, second));
            var n := Noted(m, o, first);
            && n.record.drainedSince == StampAt(r, o) && n.running == m.running
            && n.record == r.(state := n.record.state, reason := n.record.reason, drainedSince := StampAt(r, o))
            && m' == Act(n, cfg, o, Judge(n, cfg, o), second)
  {
  }

  lemma ActLeaves(n: Manager, cfg: Config, o: Observation, verdict: Verdict, stored: bool)
    ensures var n' := Act(n, cfg, o, verdict, stored);
            match verdict
            case Stay(state, reason) => n'.record == n.record.(state := state, reason := reason) && n'.running == n.running
            case Start => n'.record == Started(n.record, o.now, o.currentDevice, cfg.cooldown) && n'.running
  {
  }

  lemma TriggerReports(m: Manager, cfg: Config, o: Observation, first: bool, second: bool)
    requires !m.running && SeesTrigger(o)
    ensures Reported(m, cfg, o, Step(m, cfg, Observe(o, first, second)).record)
  {
    TriggerActs(m, cfg, o, first, second);
    var n := Noted(m, o, first);
    ActLeaves(n, cfg, o, Judge(n, cfg, o), second);
  }

  /** What a heartbeat reports, for every record, configuration and observation. */
  lemma HeartbeatReports(m: Manager, cfg: Config, o: Observation, first: bool, second: bool)
    ensures Reported(m, cfg, o, Step(m, cfg, Observe(o, first, second)).record)
  {
    if !m.running && SeesTrigger(o) {
      TriggerReports(m, cfg, o, first, second);
    }
  }

  /** What it leaves of the stamp, of the other fields, and of the running flag. */
  predicate Kept(m: Manager, cfg: Config, o: Observation, m': Manager) {
    var r, r' := m.record, m'.record;
    && r'.drainedSince == (if m.running then r.drainedSince else if SeesTrigger(o) then StampAt(r, o) else Blank)
    && (StartsNow(m, cfg, o) ==>
          && r'.lastAttemptAt == At(Truncated(o.now)) && r'.lastCompletedAt == Blank && r'.lastOutcome == NoOutcome
          && r'.lastStage == Scheduled && r'.lastError == "" && r'.beforeDevice == o.currentDevice && r'.afterDevice == ""
          && r'.nextEligibleAt == At(Truncated(o.now + cfg.cooldown)))
    && (!StartsNow(m, cfg, o) ==> r' == r.(state := r'.state, reason := r'.reason, drainedSince := r'.drainedSince))
    && m'.running == (m.running || StartsNow(m, cfg, o))
  }

  lemma TriggerKeeps(m: Manager, cfg: Config, o: Observation, first: bool, second: bool)
    requires !m.running && SeesTrigger(o)
    ensures Kept(m, cfg, o, Step(m, cfg, Observe(o, first, second)))
  {
    TriggerActs(m, cfg, o, first, second);
    var n := Noted(m, o, first);
    ActLeaves(n, cfg, o, Judge(n, cfg, o), second);
  }

  lemma HeartbeatKeeps(m: Manager, cfg: Config, o: Observation, first: bool, second: bool)
    ensures Kept(m, cfg, o, Step(m, cfg, Observe(o, first, second)))
  {
    if !m.running && SeesTrigger(o) {
      TriggerKeeps(m, cfg, o, first, second);
    }
  }

  /** What it leaves on file: a changed record when the writes succeed, the old file when
      they fail, and nothing is written of an unchanged record. */
  lemma HeartbeatWrites(m: Manager, cfg: Config, o: Observation, first: bool, second: bool)
    ensures var m' := Step(m, cfg, Observe(o, first, second));
            && (first && second && m'.record != m.record ==> m'.disk == Some(m'.record))
            && (!first && !second ==> m'.disk == m.disk)
            && (m'.record == m.record && m'.running == m.running ==> m'.disk == m.disk)
  {
  }

  /** What the end of a recovery leaves: a success clears the stamp, a failure keeps it,
      and the time from which the next one may start stays in either case. */
  lemma EndReports(m: Manager, cfg: Config, now: int, ending: Ending, stored: bool)
    requires m.active > 0
    ensures var m' := Step(m, cfg, Complete(now, ending, stored));
            var r, r' := m.record, m'.record;
            && (Says(r', Succeeded, Restored) <==> ending.failure.None?)
            && (Says(r', Failed, FailedCooldown) <==> ending.failure.Some?)
            && r'.drainedSince == (if ending.failure.None? then Blank else r.drainedSince)
            && r'.lastOutcome == (if ending.failure.None? then SuccessOutcome else FailureOutcome)
            && (r'.lastStage, r'.lastError) == (if ending.failure.None? then (Verified, "") else ending.failure.value)
            && r'.lastCompletedAt == At(Truncated(now)) && r'.afterDevice == ending.afterDevice
            && r'.lastAttemptAt == r.lastAttemptAt && r'.beforeDevice == r.beforeDevice && r'.nextEligibleAt == r.nextEligibleAt
            && !m'.running && m'.active == m.active - 1
            && m'.disk == (if stored then Some(r') else m.disk)
  {
  }

  /** A whole recovery: it starts at a heartbeat, ends, and is followed by heartbeats that
      see a trigger; here the first of them. */
  function Aftermath(m: Manager, cfg: Config, start: Event, end: Event, next: Event): Record {
    Step(Step(Step(m, cfg, start), cfg, end), cfg, next).record
  }

  /** After a failure the condition counts on: triggers are reported as failed until the
      cooldown is over, and the first one thereafter that the condition has lasted for
      starts again.  After a success it is noted afresh. */
  lemma AfterRecovery(m: Manager, cfg: Config, o: Observation, a: bool, b: bool, ended: int, ending: Ending, c: bool, o': Observation, d: bool, e: bool)
    requires StartsNow(m, cfg, o) && SeesTrigger(o') && cfg.confirmation >= SECOND
    ensures var eligible := Truncated(o.now + cfg.cooldown);
            var r := Aftermath(m, cfg, Observe(o, a, b), Complete(ended, ending, c), Observe(o', d, e));
            var reason := if o'.deviceState == Drained then DeviceDrained else BgpSessionFailed;
            && (ending.failure.Some? ==>
                  && r.drainedSince == StampAt(m.record, o)
                  && (o'.now < eligible ==> Says(r, Failed, FailedCooldown))
                  && (o'.now >= eligible && o'.now - StampAt(m.record, o).time >= cfg.confirmation ==> Says(r, InProgress, ReconnectRunning)))
            && (ending.failure.None? ==>
                  && r.drainedSince == At(Truncated(o'.now))
                  && (o'.now < eligible ==> Says(r, Cooldown, ReconnectCooldown))
                  && (o'.now >= eligible ==> Says(r, Observing, reason)))
  {
    var m1, m2 := Step(m, cfg, Observe(o, a, b)), Step(Step(m, cfg, Observe(o, a, b)), cfg, Complete(ended, ending, c));
    HeartbeatKeeps(m, cfg, o, a, b);
    EndReports(m1, cfg, ended, ending, c);
    HeartbeatReports(m2, cfg, o', d, e);
    HeartbeatKeeps(m2, cfg, o', d, e);
  }
}
