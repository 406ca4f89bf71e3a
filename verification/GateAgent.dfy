/** The assignment jobs of the gate agent as it executes them: prepare, commit and
    revoke over the state file and the kernel, each proved to be the run of ledger
    steps it stands for. */
module GateAgentJobs {
  import opened Options
  import opened AssignmentLedger

  /** How the commands of one commit go. */
  datatype CommitScript = CommitScript(
    valid: bool, read: set<Object>, saved: bool, client: Outcome, transit: Outcome, someRules: bool, allRules: bool, marked: bool)

  /** The steps of one commit, without traffic between them; a step whose turn does not
      come because an earlier one failed changes nothing. */
  function CommitEvents(s: CommitScript): seq<Event> {
    [CommitStart(s.valid, s.read), Saved(s.saved), RulesDropped, ClientConfigured(s.client), TransitConfigured(s.transit),
     RulesAdded(s.someRules, s.allRules), Marked(s.marked)]
  }

  /** The steps of `CommitEvents`, one after the other. */
  function Committed(w: World, role: Role, s: CommitScript): World {
    var w1 := Step(w, role, CommitStart(s.valid, s.read));
    var w2 := Step(w1, role, Saved(s.saved));
    var w3 := Step(w2, role, RulesDropped);
    var w4 := Step(w3, role, ClientConfigured(s.client));
    var w5 := Step(w4, role, TransitConfigured(s.transit));
    var w6 := Step(w5, role, RulesAdded(s.someRules, s.allRules));
    Step(w6, role, Marked(s.marked))
  }

  lemma {:induction false} RunFromAppend(w: World, role: Role, events: seq<Event>, e: Event)
    ensures RunFrom(w, role, events + [e]) == Step(RunFrom(w, role, events), role, e)
  {
    assert (events + [e])[..|events|] == events;
  }

  lemma CommittedIsRun(w: World, role: Role, s: CommitScript)
    ensures Committed(w, role, s) == RunFrom(w, role, CommitEvents(s))
  {
    RunFromAppend(w, role, [], CommitStart(s.valid, s.read));
    var e1 := [] + [CommitStart(s.valid, s.read)];
    RunFromAppend(w, role, e1, Saved(s.saved));
    var e2 := e1 + [Saved(s.saved)];
    RunFromAppend(w, role, e2, RulesDropped);
    var e3 := e2 + [RulesDropped];
    RunFromAppend(w, role, e3, ClientConfigured(s.client));
    var e4 := e3 + [ClientConfigured(s.client)];
    RunFromAppend(w, role, e4, TransitConfigured(s.transit));
    var e5 := e4 + [TransitConfigured(s.transit)];
    RunFromAppend(w, role, e5, RulesAdded(s.someRules, s.allRules));
    var e6 := e5 + [RulesAdded(s.someRules, s.allRules)];
    RunFromAppend(w, role, e6, Marked(s.marked));
    assert e6 + [Marked(s.marked)] == CommitEvents(s);
  }

  predicate ConfiguresWith(key: string, outcome: Outcome) { key != "" && outcome.Replaced? }

  /** Whether every step of the commit succeeds. */
  predicate Succeeds(w: World, role: Role, s: CommitScript) {
    && w.file.Some? && s.valid && s.saved
    && (role.Ingress? ==> ConfiguresWith(w.file.value.clientKey, s.client))
    && ConfiguresWith(w.file.value.transitKey, s.transit) && s.allRules && s.marked
  }

  /** The traffic that passes after each step of a commit but the last. */
  datatype Gaps = Gaps(begun: Counters, saved: Counters, dropped: Counters, client: Counters, transit: Counters, added: Counters)

  const NO_TRAFFIC := Gaps(ZERO, ZERO, ZERO, ZERO, ZERO, ZERO)

  function Amid(w: World, role: Role, e: Event, passed: Counters): World { Step(Step(w, role, e), role, Traffic(passed)) }

  /** A commit with traffic between its steps. */
  function CommittedAmid(w: World, role: Role, s: CommitScript, g: Gaps): World {
    var w1 := Amid(w, role, CommitStart(s.valid, s.read), g.begun);
    var w2 := Amid(w1, role, Saved(s.saved), g.saved);
    var w3 := Amid(w2, role, RulesDropped, g.dropped);
    var w4 := Amid(w3, role, ClientConfigured(s.client), g.client);
    var w5 := Amid(w4, role, TransitConfigured(s.transit), g.transit);
    var w6 := Amid(w5, role, RulesAdded(s.someRules, s.allRules), g.added);
    Step(w6, role, Marked(s.marked))
  }

  /** The traffic of one field that meets its object before the object is replaced, and all. */
  function Early(g: Gaps, role: Role, f: Field): nat {
    if Home(f) == Forward then g.begun(f) + g.saved(f)
    else if Home(f) == Transit then g.begun(f) + g.saved(f) + g.dropped(f) + g.client(f)
    else if role.Ingress? then g.begun(f) + g.saved(f) + g.dropped(f)
    else 0
  }

  function All(g: Gaps, f: Field): nat {
    g.begun(f) + g.saved(f) + g.dropped(f) + g.client(f) + g.transit(f) + g.added(f)
  }

  /** What a whole commit loses, with traffic at any moment: what its reading does not
      show, and what passes an object between the reading and its replacement. So it
      keeps count exactly when there is neither. */
  lemma CommitKeepsHeldExactly(w: World, role: Role, s: CommitScript, g: Gaps, f: Field)
    requires Inv(w, role) && w.phase.Idle? && Succeeds(w, role, s)
    ensures var w' := CommittedAmid(w, role, s, g);
            && Held(w')(f) + Unseen(w.kernel.counters, s.read)(f) + Early(g, role, f) == Held(w)(f) + All(g, f)
            && (Held(w')(f) == Held(w)(f) + All(g, f) <==> Unseen(w.kernel.counters, s.read)(f) == 0 && Early(g, role, f) == 0)
  {
    CommitAmidResets(w, role, s, g, f);
  }

  /** What the commit leaves: a new offset, and what passed since the replacement. */
  lemma CommitAmidResets(w: World, role: Role, s: CommitScript, g: Gaps, f: Field)
    requires Inv(w, role) && w.phase.Idle? && Succeeds(w, role, s)
    ensures w.file.value.checkpoint.None? && Early(g, role, f) <= All(g, f)
    ensures Transit in CommittedAmid(w, role, s, g).kernel.present
    ensures Reached(CommittedAmid(w, role, s, g), AfterReading(w, s).(committed := true), Idle, f, All(g, f) - Early(g, role, f))
  {
    BeforeReset(w, role, s, g);
    var w2 := Amid(Amid(w, role, CommitStart(s.valid, s.read), g.begun), role, Saved(s.saved), g.saved);
    AfterReset(w2, role, s, g, AfterReading(w, s), f, w.kernel.counters(f));
  }

  /** After a whole commit the assignment is reported: with what is held, less what unread
      objects counted. */
  lemma CommitIsReported(w: World, role: Role, s: CommitScript, g: Gaps, read: set<Object>, f: Field)
    requires Inv(w, role) && w.phase.Idle? && Succeeds(w, role, s)
    ensures var w' := CommittedAmid(w, role, s, g);
            Report(w', read).Some? && Report(w', read).value(f) + Unseen(w'.kernel.counters, read)(f) == Held(w')(f)
  {
    CommitAmidResets(w, role, s, g, f);
  }

  function AfterReading(w: World, s: CommitScript): File
    requires w.file.Some?
  {
    w.file.value.(offset := Plus(w.file.value.offset, Seen(w.kernel.counters, s.read)))
  }

  lemma BeforeReset(w: World, role: Role, s: CommitScript, g: Gaps)
    requires Inv(w, role) && w.phase.Idle? && Succeeds(w, role, s)
    ensures var w2 := Amid(Amid(w, role, CommitStart(s.valid, s.read), g.begun), role, Saved(s.saved), g.saved);
            && w2.phase == DroppingRules(AfterReading(w, s)) && w2.file == Some(AfterReading(w, s))
            && w.file.value.checkpoint.None?
            && forall f :: w2.kernel.counters(f) == w.kernel.counters(f) + g.begun(f) + g.saved(f)
  {
  }

  /** The commit has reached `phase` with its file written; `f` has counted `count`. */
  ghost predicate Reached(w: World, file: File, phase: Phase, f: Field, count: nat) {
    w.file == Some(file) && w.phase == phase && w.kernel.counters(f) == count
  }

  lemma RulesGone(w: World, role: Role, file: File, f: Field, count: nat, passed: Counters)
    requires Reached(w, file, DroppingRules(file), f, count)
    ensures Reached(Amid(w, role, RulesDropped, passed), file,
                    if role.Ingress? then ConfiguringClient(file) else ConfiguringTransit(file), f,
                    (if Home(f) == Forward then 0 else count) + passed(f))
  {
  }

  lemma ClientReplaced(w: World, role: Role, file: File, f: Field, count: nat, passed: Counters)
    requires Reached(w, file, if role.Ingress? then ConfiguringClient(file) else ConfiguringTransit(file), f, count)
    requires role.Ingress? ==> file.clientKey != ""
    ensures Reached(Amid(w, role, ClientConfigured(Replaced), passed), file, ConfiguringTransit(file), f,
                    (if Home(f) == Client && role.Ingress? then 0 else count) + passed(f))
  {
  }

  lemma TransitReplaced(w: World, role: Role, file: File, f: Field, count: nat, passed: Counters)
    requires Reached(w, file, ConfiguringTransit(file), f, count) && file.transitKey != ""
    ensures Reached(Amid(w, role, TransitConfigured(Replaced), passed), file, AddingRules(file), f,
                    (if Home(f) == Transit then 0 else count) + passed(f))
    ensures Transit in Amid(w, role, TransitConfigured(Replaced), passed).kernel.present
  {
  }

  lemma RulesBack(w: World, role: Role, file: File, f: Field, count: nat, some: bool, passed: Counters)
    requires Reached(w, file, AddingRules(file), f, count)
    ensures Reached(Amid(w, role, RulesAdded(some, true), passed), file, Marking(file), f, count + passed(f))
    ensures Reached(Step(Amid(w, role, RulesAdded(some, true), passed), role, Marked(true)), file.(committed := true), Idle, f, count + passed(f))
    ensures w.kernel.present <= Step(Amid(w, role, RulesAdded(some, true), passed), role, Marked(true)).kernel.present
  {
  }

  lemma AfterReset(w2: World, role: Role, s: CommitScript, g: Gaps, file: File, f: Field, count: nat)
    requires Reached(w2, file, DroppingRules(file), f, count + g.begun(f) + g.saved(f))
    requires (role.Ingress? ==> ConfiguresWith(file.clientKey, s.client)) && ConfiguresWith(file.transitKey, s.transit)
    requires s.allRules && s.marked && (Home(f) == Client && role.Egress? ==> count == 0)
    ensures var w3 := Amid(w2, role, RulesDropped, g.dropped);
            var w4 := Amid(w3, role, ClientConfigured(s.client), g.client);
            var w5 := Amid(w4, role, TransitConfigured(s.transit), g.transit);
            var w6 := Amid(w5, role, RulesAdded(s.someRules, s.allRules), g.added);
            && Early(g, role, f) <= All(g, f)
            && Transit in Step(w6, role, Marked(s.marked)).kernel.present
            && Reached(Step(w6, role, Marked(s.marked)), file.(committed := true), Idle, f, All(g, f) - Early(g, role, f))
  {
    var c2 := count + g.begun(f) + g.saved(f);
    RulesGone(w2, role, file, f, c2, g.dropped);
    var w3, c3 := Amid(w2, role, RulesDropped, g.dropped), (if Home(f) == Forward then 0 else c2) + g.dropped(f);
    var w4 := Amid(w3, role, ClientConfigured(s.client), g.client);
    var c4 := (if Home(f) == Client && role.Ingress? then 0 else c3) + g.client(f);
    if role.Ingress? {
      ClientReplaced(w3, role, file, f, c3, g.client);
    } else {
      NoClient(w3, role, file, f, c3, s.client, g.client);
    }
    FromTransitOn(w4, role, s, g, file, f, c4);
  }

  lemma FromTransitOn(w4: World, role: Role, s: CommitScript, g: Gaps, file: File, f: Field, count: nat)
    requires Reached(w4, file, ConfiguringTransit(file), f, count)
    requires ConfiguresWith(file.transitKey, s.transit) && s.allRules && s.marked
    ensures var w5 := Amid(w4, role, TransitConfigured(s.transit), g.transit);
            var w6 := Amid(w5, role, RulesAdded(s.someRules, s.allRules), g.added);
            && Transit in Step(w6, role, Marked(s.marked)).kernel.present
            && Reached(Step(w6, role, Marked(s.marked)), file.(committed := true), Idle, f,
                       (if Home(f) == Transit then 0 else count) + g.transit(f) + g.added(f))
  {
    TransitReplaced(w4, role, file, f, count, g.transit);
    var w5 := Amid(w4, role, TransitConfigured(s.transit), g.transit);
    var c5 := (if Home(f) == Transit then 0 else count) + g.transit(f);
    RulesBack(w5, role, file, f, c5, s.someRules, g.added);
  }

  lemma NoClient(w: World, role: Role, file: File, f: Field, count: nat, outcome: Outcome, passed: Counters)
    requires Reached(w, file, ConfiguringTransit(file), f, count)
    ensures Reached(Amid(w, role, ClientConfigured(outcome), passed), file, ConfiguringTransit(file), f, count + passed(f))
  {
  }

  // ---- A concrete loss ----

  const FINE := CommitScript(true, {Client, Transit, Forward, Nat}, true, Replaced, Replaced, true, true, true)

  /** An egress assignment that a fine commit finds idle, with nothing counted so far. */
  ghost predicate Unused(w: World, f: Field) {
    Inv(w, Egress) && w.phase.Idle? && Succeeds(w, Egress, FINE) && Held(w)(f) == 0 && w.account.truth(f) == 0
  }

  lemma AmidKeeps(w: World, e: Event)
    requires Inv(w, Egress) && Possible(w, Egress, e)
    ensures Inv(Amid(w, Egress, e, ZERO), Egress)
  {
    StepKeeps(w, Egress, e);
    StepKeeps(Step(w, Egress, e), Egress, Traffic(ZERO));
  }

  lemma FineCommitKeeps(w: World)
    requires Inv(w, Egress)
    ensures Inv(CommittedAmid(w, Egress, FINE, NO_TRAFFIC), Egress)
  {
    AmidKeeps(w, CommitStart(true, FINE.read));
    var w1 := Amid(w, Egress, CommitStart(true, FINE.read), ZERO);
    AmidKeeps(w1, Saved(true));
    var w2 := Amid(w1, Egress, Saved(true), ZERO);
    AmidKeeps(w2, RulesDropped);
    var w3 := Amid(w2, Egress, RulesDropped, ZERO);
    AmidKeeps(w3, ClientConfigured(Replaced));
    var w4 := Amid(w3, Egress, ClientConfigured(Replaced), ZERO);
    AmidKeeps(w4, TransitConfigured(Replaced));
    var w5 := Amid(w4, Egress, TransitConfigured(Replaced), ZERO);
    AmidKeeps(w5, RulesAdded(true, true));
    StepKeeps(Amid(w5, Egress, RulesAdded(true, true), ZERO), Egress, Marked(true));
  }

  lemma TruthAmid(w: World, role: Role, e: Event, passed: Counters, f: Field)
    requires !e.Traffic? && !e.Revoke?
    ensures Amid(w, role, e, passed).account.truth(f) == w.account.truth(f) + passed(f)
  {
  }

  lemma TruthCommitted(w: World, s: CommitScript, g: Gaps, f: Field)
    ensures CommittedAmid(w, Egress, s, g).account.truth(f) == w.account.truth(f) + All(g, f)
  {
    TruthAmid(w, Egress, CommitStart(s.valid, s.read), g.begun, f);
    var w1 := Amid(w, Egress, CommitStart(s.valid, s.read), g.begun);
    TruthAmid(w1, Egress, Saved(s.saved), g.saved, f);
    var w2 := Amid(w1, Egress, Saved(s.saved), g.saved);
    TruthAmid(w2, Egress, RulesDropped, g.dropped, f);
    var w3 := Amid(w2, Egress, RulesDropped, g.dropped);
    TruthAmid(w3, Egress, ClientConfigured(s.client), g.client, f);
    var w4 := Amid(w3, Egress, ClientConfigured(s.client), g.client);
    TruthAmid(w4, Egress, TransitConfigured(s.transit), g.transit, f);
    var w5 := Amid(w4, Egress, TransitConfigured(s.transit), g.transit);
    TruthAmid(w5, Egress, RulesAdded(s.someRules, s.allRules), g.added, f);
  }

  /** A first commit leaves the assignment as unused as it was. */
  lemma FirstCommit(w: World, f: Field)
    requires Unused(w, f)
    ensures Unused(CommittedAmid(w, Egress, FINE, NO_TRAFFIC), f)
    ensures Transit in CommittedAmid(w, Egress, FINE, NO_TRAFFIC).kernel.present
  {
    FineCommitKeeps(w);
    CommitKeepsHeldExactly(w, Egress, FINE, NO_TRAFFIC, f);
    CommitAmidResets(w, Egress, FINE, NO_TRAFFIC, f);
    TruthCommitted(w, FINE, NO_TRAFFIC, f);
  }

  lemma PreparedIsUnused(client: string, transit: string, f: Field)
    requires client != "" && transit != ""
    ensures Unused(Step(INITIAL, Egress, Prepare(client, transit, 1, true)), f)
  {
    StepKeeps(INITIAL, Egress, Prepare(client, transit, 1, true));
  }

  /** A fresh assignment after its first commit. */
  function Once(): World {
    CommittedAmid(Step(INITIAL, Egress, Prepare("c", "t", 1, true)), Egress, FINE, NO_TRAFFIC)
  }

  /** A commit in which nothing fails and every tool answers loses what passes the transit
      link, which is up, while the rules are being dropped: here five bytes. */
  lemma LateTrafficIsLost(five: Counters)
    requires five(TransitSent) == 5 && forall f :: f != TransitSent ==> five(f) == 0
    ensures Through(five, Once().kernel.present)
    ensures var w := CommittedAmid(Once(), Egress, FINE, NO_TRAFFIC.(saved := five));
            Held(w)(TransitSent) + 5 == w.account.truth(TransitSent)
  {
    PreparedIsUnused("c", "t", TransitSent);
    LosesAfterFirst(Step(INITIAL, Egress, Prepare("c", "t", 1, true)), five);
  }

  lemma LosesAfterFirst(w: World, five: Counters)
    requires Unused(w, TransitSent) && five(TransitSent) == 5
    ensures Transit in CommittedAmid(w, Egress, FINE, NO_TRAFFIC).kernel.present
    ensures var w' := CommittedAmid(CommittedAmid(w, Egress, FINE, NO_TRAFFIC), Egress, FINE, NO_TRAFFIC.(saved := five));
            Held(w')(TransitSent) + 5 == w'.account.truth(TransitSent)
  {
    FirstCommit(w, TransitSent);
    LosesFive(CommittedAmid(w, Egress, FINE, NO_TRAFFIC), five);
  }

  lemma LosesFive(w: World, five: Counters)
    requires Unused(w, TransitSent) && five(TransitSent) == 5
    ensures var w' := CommittedAmid(w, Egress, FINE, NO_TRAFFIC.(saved := five));
            Held(w')(TransitSent) + 5 == w'.account.truth(TransitSent)
  {
    CommitKeepsHeldExactly(w, Egress, FINE, NO_TRAFFIC.(saved := five), TransitSent);
    TruthCommitted(w, FINE, NO_TRAFFIC.(saved := five), TransitSent);
  }

  class GateAssignment {
    const role: Role
    var file: Option<File>
    var kernel: Kernel
    ghost var account: Account

    ghost function Contents(): World
      reads this
    {
      World(file, kernel, account, Idle)
    }

    constructor (role: Role)
      ensures Contents() == INITIAL && this.role == role
    {
      this.role := role;
      file := None;
      kernel := NO_KERNEL;
      account := INITIAL.account;
    }

    /** Answers the existing material while it is reusable; otherwise fresh keys and
        material, with the counters resumed from the checkpoint or the offset. */
    method PrepareAssignment(clientKey: string, transitKey: string, material: nat, ok: bool) returns (answer: Option<nat>)
      modifies this
      ensures Contents() == Step(old(Contents()), role, Prepare(clientKey, transitKey, material, ok))
      ensures answer.Some? ==> file.Some? && answer.value == file.value.material
      ensures old(file).Some? && Reusable(old(file).value, role) ==> file == old(file) && (ok ==> answer == Some(old(file).value.material))
    {
      if !ok {
        return None;
      }
      if file.Some? && Reusable(file.value, role) {
        return Some(file.value.material);
      }
      var offset := ZERO;
      if file.Some? {
        offset := if file.value.checkpoint.Some? then file.value.checkpoint.value else file.value.offset;
      }
      file := Some(File(if role.Ingress? then clientKey else "", transitKey, material, offset, None, false, false));
      return Some(material);
    }

    /** Deletes the link and brings it up again with the given key. */
    method ConfigureInterface(o: Object, key: string, outcome: Outcome) returns (ok: bool)
      modifies this`kernel
      ensures ok == ConfiguresWith(key, outcome)
      ensures kernel == if key == "" || outcome.Refused? then old(kernel)
                        else if outcome.Broken? then Delete(old(kernel), o)
                        else Create(Delete(old(kernel), o), o)
    {
      if key == "" || outcome.Refused? {
        return false;
      }
      kernel := Delete(kernel, o);
      if outcome.Broken? {
        return false;
      }
      kernel := Create(kernel, o);
      return true;
    }

    /** The rules of the assignment; on egress the NAT rule comes last. */
    method AddRules(some: bool, all: bool)
      modifies this`kernel
      ensures kernel == old(kernel).(present := old(kernel).present + AssignmentLedger.Rules(role, some, all))
    {
      if some || all {
        kernel := kernel.(present := kernel.present + {Forward});
      }
      if all && role.Egress? {
        kernel := kernel.(present := kernel.present + {Nat});
      }
    }

    method CommitAssignment(script: CommitScript) returns (ok: bool)
      modifies this
      ensures Contents() == RunFrom(old(Contents()), role, CommitEvents(script))
      ensures ok == Succeeds(old(Contents()), role, script)
    {
      CommittedIsRun(Contents(), role, script);
      account := Committed(Contents(), role, script).account;
      if file.None? || !script.valid {
        return false;
      }
      var state := file.value.(offset := Plus(file.value.offset, Seen(kernel.counters, script.read)));
      if !script.saved {
        return false;
      }
      file := Some(state);
      kernel := Delete(Delete(kernel, Forward), Nat);
      if role.Ingress? {
        ok := ConfigureInterface(Client, state.clientKey, script.client);
        if !ok {
          return false;
        }
      }
      ok := ConfigureInterface(Transit, state.transitKey, script.transit);
      if !ok {
        return false;
      }
      AddRules(script.someRules, script.allRules);
      if !script.allRules {
        return false;
      }
      if !script.marked {
        return false;
      }
      file := Some(state.(committed := true));
      return true;
    }

    /** `late` is the traffic between the reading of the counters and the deletions. */
    method RevokeAssignment(ghost late: Counters, stored: bool, read: set<Object>)
      modifies this
      ensures Contents() == Step(old(Contents()), role, Revoke(late, stored, read))
    {
      ghost var after := Step(Contents(), role, Revoke(late, stored, read));
      var state := if file.Some? then file.value else DERIVED;
      var checkpoint := Plus(state.offset, Seen(kernel.counters, read));
      state := state.(checkpoint := Some(checkpoint), clientKey := "", transitKey := "", revoked := true);
      kernel := NO_KERNEL;
      if stored {
        file := Some(state);
      }
      account := after.account;
    }
  }
}
