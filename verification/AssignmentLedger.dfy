/** The life of one assignment on a gate, and the ledger of its traffic.  Two stores are
    at play: the state file, and the kernel's interfaces and rules, whose counters start
    at zero each time an object is replaced.  A commit is cut into its steps, because it
    may stop after any of them and because traffic goes on meanwhile.  `Account` is the
    observer's bookkeeping; the agent never sees it. */
module AssignmentLedger {
  import opened Options

  // ---- Counters ----

  datatype Field =
    | ClientReceived | ClientSent | TransitReceived | TransitSent
    | AcceptedToPackets | AcceptedToBytes | AcceptedFromPackets | AcceptedFromBytes
    | DroppedToPackets | DroppedToBytes | DroppedFromPackets | DroppedFromBytes

  /** One number for each field. */
  type Counters = Field -> nat

  const ZERO: Counters := _ => 0

  function Plus(a: Counters, b: Counters): Counters {
    f => a(f) + b(f)
  }

  ghost predicate Leq(a: Counters, b: Counters) { forall f :: a(f) <= b(f) }

  /** Truncated at zero; used where nothing is truncated. */
  function Minus(a: Counters, b: Counters): Counters {
    f => if a(f) >= b(f) then a(f) - b(f) else 0
  }

  /** The kernel objects of an assignment; the NAT rule's own counter is not reported. */
  datatype Object = Client | Transit | Forward | Nat

  function Home(f: Field): Object {
    match f
    case ClientReceived => Client
    case ClientSent => Client
    case TransitReceived => Transit
    case TransitSent => Transit
    case _ => Forward
  }

  /** The share of one object in a set of counters, and the rest. */
  function Only(c: Counters, o: Object): Counters {
    f => if Home(f) == o then c(f) else 0
  }

  function Except(c: Counters, o: Object): Counters {
    f => if Home(f) == o then 0 else c(f)
  }

  /** What a reading yields: an object whose tool fails contributes zero. */
  function Seen(c: Counters, read: set<Object>): Counters {
    f => if Home(f) in read then c(f) else 0
  }

  function Unseen(c: Counters, read: set<Object>): Counters {
    f => if Home(f) in read then 0 else c(f)
  }

  // ---- The two stores ----

  /** Which objects exist, and what the counters of those that do show. */
  datatype Kernel = Kernel(present: set<Object>, counters: Counters)

  const NO_KERNEL := Kernel({}, ZERO)

  function Delete(k: Kernel, o: Object): Kernel { Kernel(k.present - {o}, Except(k.counters, o)) }

  function Create(k: Kernel, o: Object): Kernel { Kernel(k.present + {o}, Except(k.counters, o)) }

  datatype Role = Ingress | Egress

  /** The state file. Empty keys are what a revoke leaves. */
  datatype File = File(
    clientKey: string, transitKey: string, material: nat, offset: Counters, checkpoint: Option<Counters>,
    committed: bool, revoked: bool)

  /** What `derivedAssignmentState` makes up when there is no readable file. */
  const DERIVED := File("", "", 0, ZERO, None, false, false)

  datatype Phase =
    | Idle
    | Saving(state: File, seen: Counters, read: set<Object>)  // counters read, offset not yet written
    | DroppingRules(state: File)
    | ConfiguringClient(state: File)
    | ConfiguringTransit(state: File)
    | AddingRules(state: File)
    | Marking(state: File)

  /** `truth` is all traffic that passed the objects. `carried` is the part of the
      present kernel counters that is already in the offset, `doubled` what entered the
      offset or checkpoint twice, `lost` what was counted nowhere when it vanished. */
  datatype Account = Account(truth: Counters, carried: Counters, doubled: Counters, lost: Counters)

  datatype World = World(file: Option<File>, kernel: Kernel, account: Account, phase: Phase)

  const INITIAL := World(None, NO_KERNEL, Account(ZERO, ZERO, ZERO, ZERO), Idle)

  // ---- Steps ----

  /** How configuring an interface went: refused before touching it, deleted but not
      brought up again, or replaced. */
  datatype Outcome = Refused | Broken | Replaced

  datatype Event =
    | Traffic(passed: Counters)
    | Prepare(clientKey: string, transitKey: string, material: nat, ok: bool)
    | CommitStart(valid: bool, read: set<Object>)  // `read` are the objects whose tools answer
    | Saved(ok: bool)
    | RulesDropped
    | ClientConfigured(outcome: Outcome)
    | TransitConfigured(outcome: Outcome)
    | RulesAdded(some: bool, all: bool)
    | Marked(ok: bool)
    | Stop                                         // the agent ends; a new one starts idle
    | Revoke(late: Counters, stored: bool, read: set<Object>)  // `late` passes between the reading and the deletion
    | Reboot                                       // the kernel objects vanish

  predicate Reusable(f: File, role: Role) { !f.revoked && f.transitKey != "" && (role.Ingress? ==> f.clientKey != "") }

  function Resumed(file: Option<File>): Counters {
    match file
    case None => ZERO
    case Some(f) => if f.checkpoint.Some? then f.checkpoint.value else f.offset
  }

  function Prepared(file: Option<File>, role: Role, clientKey: string, transitKey: string, material: nat): File {
    if file.Some? && Reusable(file.value, role) then file.value
    else File(if role.Ingress? then clientKey else "", transitKey, material, Resumed(file), None, false, false)
  }

  /** An object goes away with its counters; the part not carried is lost. */
  function Vanish(w: World, o: Object): World {
    var gone, carried := Only(w.kernel.counters, o), Only(w.account.carried, o);
    w.(kernel := Delete(w.kernel, o),
       account := w.account.(carried := Except(w.account.carried, o), lost := Plus(w.account.lost, Minus(gone, carried))))
  }

  /** Configuring fails on an empty key before anything is touched. */
  function Configured(w: World, o: Object, key: string, outcome: Outcome, next: Phase): World {
    if key == "" || outcome.Refused? then w.(phase := Idle)
    else
      var gone := Vanish(w, o);
      if outcome.Broken? then gone.(phase := Idle) else gone.(kernel := Create(gone.kernel, o), phase := next)
  }

  function Revoked(w: World, late: Counters, stored: bool, read: set<Object>): World {
    var f := if w.file.Some? then w.file.value else DERIVED;
    var k, a := w.kernel.counters, w.account;
    var checkpoint := Plus(f.offset, Seen(k, read));
    var truth := Plus(a.truth, late);
    if stored then
      var dropped := if f.checkpoint.Some? then Minus(f.checkpoint.value, f.offset) else Minus(Unseen(k, read), Unseen(a.carried, read));
      World(Some(f.(checkpoint := Some(checkpoint), clientKey := "", transitKey := "", revoked := true)), NO_KERNEL,
            Account(truth, ZERO, Plus(a.doubled, Seen(a.carried, read)), Plus(Plus(a.lost, late), dropped)), Idle)
    else
      World(w.file, NO_KERNEL, Account(truth, ZERO, a.doubled, Plus(Plus(a.lost, late), Minus(k, a.carried))), Idle)
  }

  /** Which rules adding leaves: the NAT rule of an egress comes last. */
  function Rules(role: Role, some: bool, all: bool): set<Object> {
    (if some || all then {Forward} else {}) + (if all && role.Egress? then {Nat} else {})
  }

  ghost predicate Ordered(w: World) {
    && Leq(w.account.carried, w.kernel.counters)
    && (w.file.Some? && w.file.value.checkpoint.Some? ==> Leq(w.file.value.offset, w.file.value.checkpoint.value))
  }

  function Step(w: World, role: Role, e: Event): World {
    match e
    case Traffic(passed) =>
      w.(kernel := w.kernel.(counters := Plus(w.kernel.counters, passed)),
         account := w.account.(truth := Plus(w.account.truth, passed)))
    case Prepare(clientKey, transitKey, material, ok) =>
      if !w.phase.Idle? || !ok then w
      else w.(file := Some(Prepared(w.file, role, clientKey, transitKey, material)))
    case CommitStart(valid, read) =>
      if !w.phase.Idle? || w.file.None? || !valid then w
      else
        var f, seen := w.file.value, Seen(w.kernel.counters, read);
        w.(phase := Saving(f.(offset := Plus(f.offset, seen)), seen, read))
    case Saved(ok) =>
      if !w.phase.Saving? then w
      else if !ok then w.(phase := Idle)
      else w.(file := Some(w.phase.state), phase := DroppingRules(w.phase.state),
              account := w.account.(carried := Plus(w.phase.seen, Unseen(w.account.carried, w.phase.read)),
                                    doubled := Plus(w.account.doubled, Seen(w.account.carried, w.phase.read))))
    case RulesDropped =>
      if !w.phase.DroppingRules? then w
      else Vanish(Vanish(w, Forward), Nat).(phase := if role.Ingress? then ConfiguringClient(w.phase.state) else ConfiguringTransit(w.phase.state))
    case ClientConfigured(outcome) =>
      if !w.phase.ConfiguringClient? then w
      else Configured(w, Client, w.phase.state.clientKey, outcome, ConfiguringTransit(w.phase.state))
    case TransitConfigured(outcome) =>
      if !w.phase.ConfiguringTransit? then w
      else Configured(w, Transit, w.phase.state.transitKey, outcome, AddingRules(w.phase.state))
    case RulesAdded(some, all) =>
      if !w.phase.AddingRules? then w
      else w.(kernel := w.kernel.(present := w.kernel.present + Rules(role, some, all)),
              phase := if all then Marking(w.phase.state) else Idle)
    case Marked(ok) =>
      if !w.phase.Marking? then w
      else w.(file := if ok then Some(w.phase.state.(committed := true)) else w.file, phase := Idle)
    case Stop => w.(phase := Idle)
    case Revoke(late, stored, read) => if w.phase.Idle? then Revoked(w, late, stored, read) else w
    case Reboot =>
      w.(kernel := NO_KERNEL, phase := Idle,
         account := w.account.(carried := ZERO, lost := Plus(w.account.lost, Minus(w.kernel.counters, w.account.carried))))
  }

  ghost predicate Through(passed: Counters, present: set<Object>) {
    forall f :: Home(f) !in present ==> passed(f) == 0
  }

  /** Traffic passes only objects that exist, and generated keys are not empty. */
  ghost predicate Possible(w: World, role: Role, e: Event) {
    match e
    case Traffic(passed) => Through(passed, w.kernel.present)
    case Prepare(clientKey, transitKey, _, _) => clientKey != "" && transitKey != ""
    case Revoke(late, _, _) => Through(late, w.kernel.present)
    case _ => true
  }

  // ---- What the agent holds and reports ----

  function Held(w: World): Counters {
    match w.file
    case None => ZERO
    case Some(f) => if f.checkpoint.Some? then f.checkpoint.value else Plus(f.offset, w.kernel.counters)
  }

  /** `assignmentCounters` for this assignment, with the tools of `read` answering. */
  function Report(w: World, read: set<Object>): Option<Counters> {
    match w.file
    case None => None
    case Some(f) =>
      if f.checkpoint.Some? then f.checkpoint
      else if !f.committed then None
      else Some(Plus(f.offset, Seen(w.kernel.counters, read)))
  }

  /** The reading misses nothing that was counted. */
  ghost predicate ReadsAll(k: Kernel, read: set<Object>) {
    forall f :: Home(f) in read || k.counters(f) == 0
  }

  // ---- The invariant ----

  /** Conservation: what the agent holds and what was lost are together all the traffic
      and what was counted twice. */
  ghost predicate Balanced(w: World) {
    var a := w.account;
    forall f :: Held(w)(f) + a.lost(f) == a.truth(f) + a.carried(f) + a.doubled(f)
  }

  /** A revoked or missing assignment has no keys, no kernel objects and no traffic. */
  ghost predicate AbsentUnlessPrepared(w: World, role: Role) {
    && Through(w.kernel.counters, w.kernel.present)
    && (role.Egress? ==> Client !in w.kernel.present)
    && (w.file.Some? && !w.file.value.revoked ==> w.file.value.transitKey != "" && (role.Ingress? ==> w.file.value.clientKey != ""))
    && (w.file.None? ==> w.kernel.present == {})
    && (w.file.Some? && w.file.value.revoked ==>
          w.kernel.present == {} && w.file.value.clientKey == "" && w.file.value.transitKey == "" && w.file.value.checkpoint.Some?)
    && (w.file.Some? && w.file.value.checkpoint.Some? ==> w.file.value.revoked)
  }

  ghost predicate PhaseInv(w: World, role: Role) {
    match w.phase
    case Idle => true
    case Saving(state, seen, read) =>
      && w.file.Some? && Leq(seen, w.kernel.counters) && (forall f :: Home(f) !in read ==> seen(f) == 0)
      && state == w.file.value.(offset := Plus(w.file.value.offset, seen))
    case DroppingRules(state) => w.file == Some(state)
    case ConfiguringClient(state) => w.file == Some(state) && role.Ingress?
    case ConfiguringTransit(state) => w.file == Some(state) && (role.Ingress? ==> !state.revoked)
    case AddingRules(state) => w.file == Some(state) && !state.revoked
    case Marking(state) => w.file == Some(state) && !state.revoked
  }

  ghost predicate Inv(w: World, role: Role) {
    Ordered(w) && Balanced(w) && AbsentUnlessPrepared(w, role) && PhaseInv(w, role)
  }

  // ---- Every step keeps it ----

  lemma VanishKeeps(w: World, o: Object)
    requires Ordered(w) && Balanced(w) && (w.file.Some? ==> w.file.value.checkpoint.None? || w.kernel.present == {})
    requires Through(w.kernel.counters, w.kernel.present)
    requires w.file.None? ==> w.kernel.present == {}
    ensures var w' := Vanish(w, o);
            && Ordered(w') && Balanced(w') && Through(w'.kernel.counters, w'.kernel.present)
            && (w.kernel.present == {} ==> w'.kernel.present == {})
  {
  }

  lemma ConfiguredKeeps(w: World, role: Role, o: Object, key: string, outcome: Outcome, next: Phase)
    requires Inv(w, role) && w.file.Some? && (w.file.value.revoked ==> key == "")
    requires next.ConfiguringTransit? || next.AddingRules?
    requires !w.file.value.revoked ==> PhaseInv(w.(phase := next), role)
    requires role.Egress? ==> o != Client
    ensures Inv(Configured(w, o, key, outcome, next), role)
  {
    if key != "" && !outcome.Refused? {
      VanishKeeps(w, o);
    }
  }

  lemma RevokedKeeps(w: World, role: Role, late: Counters, stored: bool, read: set<Object>)
    requires Inv(w, role) && Through(late, w.kernel.present)
    ensures Inv(Revoked(w, late, stored, read), role)
  {
  }

  lemma SavedKeeps(w: World, role: Role)
    requires Inv(w, role) && w.phase.Saving?
    ensures Inv(Step(w, role, Saved(true)), role)
  {
  }

  lemma TrafficKeeps(w: World, role: Role, passed: Counters)
    requires Inv(w, role) && Through(passed, w.kernel.present)
    ensures Inv(Step(w, role, Traffic(passed)), role)
  {
  }

  lemma PrepareKeeps(w: World, role: Role, e: Event)
    requires Inv(w, role) && e.Prepare? && Possible(w, role, e)
    ensures Inv(Step(w, role, e), role)
  {
  }

  lemma CommitStartKeeps(w: World, role: Role, e: Event)
    requires Inv(w, role) && e.CommitStart?
    ensures Inv(Step(w, role, e), role)
  {
  }

  lemma StepKeeps(w: World, role: Role, e: Event)
    requires Inv(w, role) && Possible(w, role, e)
    ensures Inv(Step(w, role, e), role)
  {
    match e
    case Traffic(passed) => TrafficKeeps(w, role, passed);
    case Prepare(_, _, _, _) => PrepareKeeps(w, role, e);
    case CommitStart(_, _) => CommitStartKeeps(w, role, e);
    case Saved(ok) => if w.phase.Saving? && ok { SavedKeeps(w, role); }
    case RulesDropped => if w.phase.DroppingRules? { VanishKeeps(w, Forward); VanishKeeps(Vanish(w, Forward), Nat); }
    case ClientConfigured(outcome) =>
      if w.phase.ConfiguringClient? {
        ConfiguredKeeps(w, role, Client, w.phase.state.clientKey, outcome, ConfiguringTransit(w.phase.state));
      }
    case TransitConfigured(outcome) =>
      if w.phase.ConfiguringTransit? {
        ConfiguredKeeps(w, role, Transit, w.phase.state.transitKey, outcome, AddingRules(w.phase.state));
      }
    case RulesAdded(_, _) =>
    case Marked(_) =>
    case Stop =>
    case Revoke(late, stored, read) => if w.phase.Idle? { RevokedKeeps(w, role, late, stored, read); }
    case Reboot =>
  }

  // ---- Runs ----

  function RunFrom(w: World, role: Role, events: seq<Event>): World {
    if events == [] then w else Step(RunFrom(w, role, events[..|events| - 1]), role, events[|events| - 1])
  }

  function Run(role: Role, events: seq<Event>): World { RunFrom(INITIAL, role, events) }

  ghost predicate PossibleRun(role: Role, events: seq<Event>) {
    forall i :: 0 <= i < |events| ==> Possible(Run(role, events[..i]), role, events[i])
  }

  lemma PrefixPossible(role: Role, events: seq<Event>)
    requires PossibleRun(role, events) && events != []
    ensures PossibleRun(role, events[..|events| - 1])
    ensures Possible(Run(role, events[..|events| - 1]), role, events[|events| - 1])
  {
    Prefixes(events);
  }

  lemma Prefixes(events: seq<Event>)
    requires events != []
    ensures forall i :: 0 <= i < |events| ==> events[..|events| - 1][..i] == events[..i]
    ensures forall i :: 0 <= i < |events| - 1 ==> events[..|events| - 1][i] == events[i]
  {
  }

  lemma {:induction false} RunKeeps(role: Role, events: seq<Event>)
    requires PossibleRun(role, events)
    ensures Inv(Run(role, events), role)
  {
    if events != [] {
      var n := |events| - 1;
      PrefixPossible(role, events);
      RunKeeps(role, events[..n]);
      StepKeeps(Run(role, events[..n]), role, events[n]);
    }
  }

  /** On every run, whatever stops, fails or is lost: in each field, what the agent holds
      and what was lost add up to the true traffic and what was counted twice. */
  lemma Conservation(role: Role, events: seq<Event>, f: Field)
    requires PossibleRun(role, events)
    ensures var w := Run(role, events);
            Held(w)(f) + w.account.lost(f) == w.account.truth(f) + w.account.carried(f) + w.account.doubled(f)
  {
    RunKeeps(role, events);
  }

  // ---- What a run misses, told from its events ----

  /** The objects whose counters a commit has read but not yet reset. */
  function Unreset(phase: Phase): set<Object> {
    match phase
    case Saving(_, _, _) => {Client, Transit, Forward}
    case DroppingRules(_) => {Client, Transit, Forward}
    case ConfiguringClient(_) => {Client, Transit}
    case ConfiguringTransit(_) => {Transit}
    case _ => {}
  }

  /** The objects a step of a commit deletes. */
  function ResetBy(w: World, e: Event): set<Object> {
    match e
    case RulesDropped => if w.phase.DroppingRules? then {Forward, Nat} else {}
    case ClientConfigured(outcome) =>
      if w.phase.ConfiguringClient? && w.phase.state.clientKey != "" && !outcome.Refused? then {Client} else {}
    case TransitConfigured(outcome) =>
      if w.phase.ConfiguringTransit? && w.phase.state.transitKey != "" && !outcome.Refused? then {Transit} else {}
    case _ => {}
  }

  predicate Begins(w: World, e: Event) { e.CommitStart? && w.phase.Idle? && w.file.Some? && e.valid }

  /** `unread` has passed objects that still exist and is in no saved reading, `since` is
      what of it stays so when the offset being written is saved, `missed` is what went
      away with its object unread. */
  datatype Trace = Trace(unread: Counters, since: Counters, missed: Counters)

  function Follow(t: Trace, w: World, e: Event): Trace {
    match e
    case Traffic(passed) => t.(unread := Plus(t.unread, passed), since := Plus(t.since, passed))
    case CommitStart(_, read) => if Begins(w, e) then t.(since := Unseen(t.unread, read)) else t
    case Saved(ok) => if w.phase.Saving? && ok then t.(unread := t.since) else t
    case Revoke(late, stored, read) =>
      if !w.phase.Idle? then t
      else Trace(ZERO, ZERO, Plus(Plus(t.missed, late), if stored then Forgone(w.file, t.unread, read) else t.unread))
    case Reboot => Trace(ZERO, ZERO, Plus(t.missed, t.unread))
    case _ =>
      t.(unread := Unseen(t.unread, ResetBy(w, e)), missed := Plus(t.missed, Seen(t.unread, ResetBy(w, e))))
  }

  /** What a stored revoke leaves out: what it does not read, or, when one came before,
      what that one had read since the last commit. */
  function Forgone(file: Option<File>, unread: Counters, read: set<Object>): Counters {
    if file.Some? && file.value.checkpoint.Some? then Minus(file.value.checkpoint.value, file.value.offset)
    else Unseen(unread, read)
  }

  function TraceOf(role: Role, events: seq<Event>): Trace {
    if events == [] then Trace(ZERO, ZERO, ZERO)
    else
      var init := events[..|events| - 1];
      Follow(TraceOf(role, init), Run(role, init), events[|events| - 1])
  }

  function Missed(role: Role, events: seq<Event>): Counters { TraceOf(role, events).missed }

  /** The trace tells what the account records. */
  ghost predicate Traced(w: World, t: Trace) {
    && (forall f :: t.unread(f) + w.account.carried(f) == w.kernel.counters(f))
    && (forall f :: t.missed(f) == w.account.lost(f))
    && (w.phase.Saving? ==> forall f ::
          t.since(f) + w.phase.seen(f) + Unseen(w.account.carried, w.phase.read)(f) == w.kernel.counters(f))
  }

  lemma TracedStep(w: World, role: Role, e: Event, t: Trace)
    requires Inv(w, role) && Possible(w, role, e) && Traced(w, t)
    ensures Traced(Step(w, role, e), Follow(t, w, e))
  {
    match e
    case Traffic(_) =>
    case Prepare(_, _, _, _) =>
    case CommitStart(_, _) =>
    case Saved(_) =>
    case RulesDropped => TracedReset(w, role, e, t);
    case ClientConfigured(_) => TracedClient(w, role, e, t);
    case TransitConfigured(_) => TracedTransit(w, role, e, t);
    case RulesAdded(_, _) =>
    case Marked(_) =>
    case Stop =>
    case Revoke(late, stored, read) => TracedRevoke(w, role, late, stored, read, t);
    case Reboot =>
  }

  lemma TracedReset(w: World, role: Role, e: Event, t: Trace)
    requires Ordered(w) && Traced(w, t) && e.RulesDropped?
    ensures Traced(Step(w, role, e), Follow(t, w, e))
  {
  }

  lemma TracedClient(w: World, role: Role, e: Event, t: Trace)
    requires Ordered(w) && Traced(w, t) && e.ClientConfigured?
    ensures Traced(Step(w, role, e), Follow(t, w, e))
  {
  }

  lemma TracedTransit(w: World, role: Role, e: Event, t: Trace)
    requires Ordered(w) && Traced(w, t) && e.TransitConfigured?
    ensures Traced(Step(w, role, e), Follow(t, w, e))
  {
  }

  lemma TracedRevoke(w: World, role: Role, late: Counters, stored: bool, read: set<Object>, t: Trace)
    requires Inv(w, role) && Traced(w, t) && Through(late, w.kernel.present)
    ensures Traced(Step(w, role, Revoke(late, stored, read)), Follow(t, w, Revoke(late, stored, read)))
  {
  }

  lemma {:induction false} RunTraced(role: Role, events: seq<Event>)
    requires PossibleRun(role, events)
    ensures Traced(Run(role, events), TraceOf(role, events))
  {
    if events != [] {
      var n := |events| - 1;
      PrefixPossible(role, events);
      RunTraced(role, events[..n]);
      RunKeeps(role, events[..n]);
      TracedStep(Run(role, events[..n]), role, events[n], TraceOf(role, events[..n]));
    }
  }

  /** On every run, with traffic at any moment, commits stopping anywhere, failed tools,
      reboots and repeated revokes: what the agent holds and what the run missed are the
      true traffic and what was counted twice. So it undercounts exactly when it missed
      more than it counted twice. */
  lemma NeverUndercounts(role: Role, events: seq<Event>, f: Field)
    requires PossibleRun(role, events)
    ensures var w := Run(role, events);
            var twice := w.account.carried(f) + w.account.doubled(f);
            && Held(w)(f) + Missed(role, events)(f) == w.account.truth(f) + twice
            && (w.account.truth(f) <= Held(w)(f) <==> Missed(role, events)(f) <= twice)
  {
    Conservation(role, events, f);
    RunTraced(role, events);
  }

  /** A commit that wrote its offset goes on until the last counter is reset. */
  ghost predicate Whole(w: World, e: Event) {
    match w.phase
    case DroppingRules(_) => !e.Stop?
    case ConfiguringClient(state) => !e.Stop? && (e.ClientConfigured? && !state.revoked ==> e.outcome.Replaced?)
    case ConfiguringTransit(state) => !e.Stop? && (e.TransitConfigured? && !state.revoked ==> !e.outcome.Refused?)
    case _ => true
  }

  ghost predicate NothingDoubled(w: World) {
    && (forall f :: w.account.doubled(f) == 0)
    && (forall f :: w.account.carried(f) != 0 ==> Home(f) in Unreset(w.phase) && !w.phase.Saving?)
  }

  lemma WholeStep(w: World, role: Role, e: Event)
    requires Inv(w, role) && Possible(w, role, e) && NothingDoubled(w) && Whole(w, e)
    ensures NothingDoubled(Step(w, role, e))
  {
  }

  ghost predicate WholeRun(role: Role, events: seq<Event>) {
    forall i :: 0 <= i < |events| ==> Whole(Run(role, events[..i]), events[i])
  }

  lemma {:induction false} WholeRunDoublesNothing(role: Role, events: seq<Event>)
    requires PossibleRun(role, events) && WholeRun(role, events)
    ensures NothingDoubled(Run(role, events))
  {
    if events != [] {
      var n := |events| - 1;
      PrefixPossible(role, events);
      Prefixes(events);
      WholeRunDoublesNothing(role, events[..n]);
      RunKeeps(role, events[..n]);
      WholeStep(Run(role, events[..n]), role, events[n]);
    }
  }

  /** If no commit stops between writing the offset and the last reset, the agent, when
      idle, holds the true traffic less exactly what the run missed. */
  lemma ExactWhenWhole(role: Role, events: seq<Event>, f: Field)
    requires PossibleRun(role, events) && WholeRun(role, events) && Run(role, events).phase.Idle?
    ensures var w := Run(role, events);
            && Held(w)(f) + Missed(role, events)(f) == w.account.truth(f)
            && (Held(w)(f) == w.account.truth(f) <==> Missed(role, events)(f) == 0)
  {
    NeverUndercounts(role, events, f);
    WholeRunDoublesNothing(role, events);
  }

  // ---- Late traffic ----

  /** `pending` has passed since the last reading of a commit, `late` of it was still
      unread when its object was deleted. */
  datatype Lateness = Lateness(pending: Counters, late: Counters)

  function Lag(l: Lateness, w: World, e: Event): Lateness {
    match e
    case Traffic(passed) => l.(pending := Plus(l.pending, passed))
    case CommitStart(_, _) => if Begins(w, e) then l.(pending := ZERO) else l
    case Revoke(late, _, _) => if w.phase.Idle? then l.(late := Plus(l.late, late)) else l
    case _ => l.(late := Plus(l.late, Seen(l.pending, ResetBy(w, e))))
  }

  function LatenessOf(role: Role, events: seq<Event>): Lateness {
    if events == [] then Lateness(ZERO, ZERO)
    else
      var init := events[..|events| - 1];
      Lag(LatenessOf(role, init), Run(role, init), events[|events| - 1])
  }

  /** The traffic that met an object between its reading and its deletion, by a commit
      whose offset was saved or by a revoke. */
  function Late(role: Role, events: seq<Event>): Counters { LatenessOf(role, events).late }

  ghost predicate OnlyLate(w: World, t: Trace, l: Lateness) {
    && (forall f :: t.missed(f) == l.late(f))
    && (forall f :: Home(f) in Unreset(w.phase) ==> l.pending(f) == if w.phase.Saving? then t.since(f) else t.unread(f))
  }

  lemma OnlyLateStep(w: World, role: Role, e: Event, t: Trace, l: Lateness)
    requires Inv(w, role) && Possible(w, role, e) && Steady(w, e) && Traced(w, t) && OnlyLate(w, t, l)
    ensures OnlyLate(Step(w, role, e), Follow(t, w, e), Lag(l, w, e))
  {
    match e
    case CommitStart(_, read) => assert forall f :: Home(f) !in read ==> t.unread(f) == 0;
    case Revoke(_, _, read) => assert forall f :: Home(f) !in read ==> t.unread(f) == 0;
    case RulesDropped => OnlyLateReset(w, role, e, t, l);
    case ClientConfigured(_) => OnlyLateReset(w, role, e, t, l);
    case TransitConfigured(_) => OnlyLateReset(w, role, e, t, l);
    case _ =>
  }

  lemma OnlyLateReset(w: World, role: Role, e: Event, t: Trace, l: Lateness)
    requires Inv(w, role) && Traced(w, t) && OnlyLate(w, t, l)
    requires e.RulesDropped? || e.ClientConfigured? || e.TransitConfigured?
    ensures OnlyLate(Step(w, role, e), Follow(t, w, e), Lag(l, w, e))
  {
    assert forall f :: Home(f) in ResetBy(w, e) ==> Home(f) in Unreset(w.phase);
  }

  ghost predicate SteadyRun(role: Role, events: seq<Event>) {
    forall i :: 0 <= i < |events| ==> Steady(Run(role, events[..i]), events[i])
  }

  lemma {:induction false} SteadyRunMissesLate(role: Role, events: seq<Event>)
    requires PossibleRun(role, events) && SteadyRun(role, events)
    ensures OnlyLate(Run(role, events), TraceOf(role, events), LatenessOf(role, events))
  {
    if events != [] {
      var n := |events| - 1;
      PrefixPossible(role, events);
      Prefixes(events);
      SteadyRunMissesLate(role, events[..n]);
      RunKeeps(role, events[..n]);
      RunTraced(role, events[..n]);
      OnlyLateStep(Run(role, events[..n]), role, events[n], TraceOf(role, events[..n]), LatenessOf(role, events[..n]));
    }
  }

  /** When tools answer, revokes are stored and first, and the kernel keeps its objects,
      a run misses just the late traffic: after whole commits an idle agent undercounts
      by exactly that. */
  lemma UndercountsLateTraffic(role: Role, events: seq<Event>, f: Field)
    requires PossibleRun(role, events) && SteadyRun(role, events)
    ensures Missed(role, events)(f) == Late(role, events)(f)
    ensures WholeRun(role, events) && Run(role, events).phase.Idle? ==>
              var w := Run(role, events);
              && Held(w)(f) + Late(role, events)(f) == w.account.truth(f)
              && (w.account.truth(f) <= Held(w)(f) <==> Late(role, events)(f) == 0)
  {
    SteadyRunMissesLate(role, events);
    if WholeRun(role, events) && Run(role, events).phase.Idle? {
      ExactWhenWhole(role, events, f);
    }
  }

  // ---- Who is reported ----

  /** What a run has made of an assignment last, told from its events. */
  datatype Standing = Absent | FreshlyPrepared | InService | Withdrawn

  /** A prepare stores a new assignment where there is none or a revoked one, a commit
      counts from its mark, and a revoke when it is stored. */
  function StandingOf(role: Role, events: seq<Event>): Standing {
    if events == [] then Absent
    else
      var init := events[..|events| - 1];
      var was, phase := StandingOf(role, init), Run(role, init).phase;
      match events[|events| - 1]
      case Prepare(_, _, _, ok) => if phase.Idle? && ok && (was.Absent? || was.Withdrawn?) then FreshlyPrepared else was
      case Marked(ok) => if phase.Marking? && ok then InService else was
      case Revoke(_, stored, _) => if phase.Idle? && stored then Withdrawn else was
      case _ => was
  }

  predicate IsReported(s: Standing) { s.InService? || s.Withdrawn? }

  predicate StandsAs(file: Option<File>, s: Standing) {
    match s
    case Absent => file.None?
    case FreshlyPrepared => file.Some? && !file.value.revoked && file.value.checkpoint.None? && !file.value.committed
    case InService => file.Some? && !file.value.revoked && file.value.checkpoint.None? && file.value.committed
    case Withdrawn => file.Some? && file.value.revoked && file.value.checkpoint.Some?
  }

  lemma {:induction false} StandingHolds(role: Role, events: seq<Event>)
    requires PossibleRun(role, events)
    ensures StandsAs(Run(role, events).file, StandingOf(role, events))
  {
    if events != [] {
      var n := |events| - 1;
      PrefixPossible(role, events);
      StandingHolds(role, events[..n]);
      RunKeeps(role, events[..n]);
      StandingStep(role, events);
    }
  }

  lemma StandingStep(role: Role, events: seq<Event>)
    requires events != []
    requires var init := events[..|events| - 1]; Inv(Run(role, init), role) && StandsAs(Run(role, init).file, StandingOf(role, init))
    ensures StandsAs(Run(role, events).file, StandingOf(role, events))
  {
  }

  /** At any moment of any run, an assignment is reported exactly when the last of its
      stored prepares, commit marks and stored revokes was a mark or a revoke.  What is
      reported is what is held, less what unread objects of a committed one counted. */
  lemma ReportedExactly(role: Role, events: seq<Event>, read: set<Object>, f: Field)
    requires PossibleRun(role, events)
    ensures var w, standing := Run(role, events), StandingOf(role, events);
            && (Report(w, read).Some? <==> IsReported(standing))
            && (standing.InService? ==> Report(w, read).value(f) + Unseen(w.kernel.counters, read)(f) == Held(w)(f))
            && (standing.InService? && ReadsAll(w.kernel, read) ==> Report(w, read).value(f) == Held(w)(f))
            && (standing.Withdrawn? ==> Report(w, read) == Some(Held(w)))
  {
    StandingHolds(role, events);
  }

  /** The report of an assignment whose last commit succeeded is its true traffic, when
      no commit of the run stopped halfway, nothing was missed and every tool answers. */
  lemma ReportIsTruth(role: Role, events: seq<Event>, read: set<Object>, f: Field)
    requires PossibleRun(role, events) && WholeRun(role, events) && Run(role, events).phase.Idle?
    requires StandingOf(role, events).InService? && ReadsAll(Run(role, events).kernel, read)
    ensures var w := Run(role, events);
            Report(w, read).Some? && Report(w, read).value(f) + Missed(role, events)(f) == w.account.truth(f)
  {
    ReportedExactly(role, events, read, f);
    ExactWhenWhole(role, events, f);
  }

  // ---- Reports ----

  /** No reboot, no reading of a commit or revoke misses anything, and each revoke is
      stored and the assignment's first; traffic may pass at any time. */
  ghost predicate Steady(w: World, e: Event) {
    match e
    case CommitStart(_, read) => ReadsAll(w.kernel, read)
    case Revoke(_, stored, read) => stored && ReadsAll(w.kernel, read) && (w.file.Some? ==> w.file.value.checkpoint.None?)
    case Reboot => false
    case _ => true
  }

  /** The agent holds at least `b`, and will when the commit in progress ends anywhere. */
  ghost predicate HoldsAtLeast(w: World, b: Counters) {
    && Leq(b, Held(w))
    && (!w.phase.Idle? && w.file.Some? && w.file.value.checkpoint.None? ==> Leq(b, w.phase.state.offset))
  }

  lemma SteadyStep(w: World, role: Role, e: Event, b: Counters)
    requires Inv(w, role) && Possible(w, role, e) && Steady(w, e) && HoldsAtLeast(w, b)
    ensures HoldsAtLeast(Step(w, role, e), b)
  {
  }

  lemma {:induction false} SteadyRunHolds(role: Role, events: seq<Event>, i: nat)
    requires PossibleRun(role, events) && i <= |events| && Run(role, events[..i]).phase.Idle?
    requires forall k :: i <= k < |events| ==> Steady(Run(role, events[..k]), events[k])
    ensures HoldsAtLeast(Run(role, events), Held(Run(role, events[..i])))
    decreases |events|
  {
    if i == |events| {
      assert events[..i] == events;
    } else {
      var n := |events| - 1;
      var init := events[..n];
      PrefixPossible(role, events);
      Prefixes(events);
      SteadyRunHolds(role, init, i);
      RunKeeps(role, init);
      SteadyStep(Run(role, init), role, events[n], Held(Run(role, events[..i])));
    }
  }

  /** Reports never decrease from one moment between jobs to any later one, through
      commits that stop anywhere, traffic at any time, revoke and renewed prepare; the
      tools may have failed at the earlier report, but not at the later one. */
  lemma ReportsNeverDecrease(role: Role, events: seq<Event>, i: nat, earlier: set<Object>, later: set<Object>)
    requires PossibleRun(role, events) && i <= |events| && Run(role, events[..i]).phase.Idle?
    requires forall k :: i <= k < |events| ==> Steady(Run(role, events[..k]), events[k])
    requires ReadsAll(Run(role, events).kernel, later)
    requires IsReported(StandingOf(role, events[..i])) && IsReported(StandingOf(role, events))
    ensures Report(Run(role, events[..i]), earlier).Some? && Report(Run(role, events), later).Some?
    ensures Leq(Report(Run(role, events[..i]), earlier).value, Report(Run(role, events), later).value)
  {
    ReportedAt(role, events, i, earlier);
    ReportedAt(role, events, |events|, later);
    assert events[..|events|] == events;
    SteadyRunHolds(role, events, i);
    ReportAtMostHeld(Run(role, events[..i]), earlier);
    ReportAtMostHeld(Run(role, events), later);
  }

  lemma ReportedAt(role: Role, events: seq<Event>, i: nat, read: set<Object>)
    requires PossibleRun(role, events) && i <= |events|
    ensures Report(Run(role, events[..i]), read).Some? <==> IsReported(StandingOf(role, events[..i]))
  {
    PrefixesPossible(role, events, i);
    StandingHolds(role, events[..i]);
  }

  lemma PrefixesPossible(role: Role, events: seq<Event>, i: nat)
    requires PossibleRun(role, events) && i <= |events|
    ensures PossibleRun(role, events[..i])
  {
    forall k | 0 <= k < i ensures Possible(Run(role, events[..i][..k]), role, events[..i][k]) {
      assert events[..i][..k] == events[..k];
    }
  }

  /** A report is what the agent holds, or less where a tool failed. */
  lemma ReportAtMostHeld(w: World, read: set<Object>)
    requires Report(w, read).Some?
    ensures Leq(Report(w, read).value, Held(w))
    ensures ReadsAll(w.kernel, read) ==> Leq(Held(w), Report(w, read).value)
  {
  }

  /** A failed reading at a report hides exactly what the unread objects counted. */
  lemma ReportHidesUnread(w: World, read: set<Object>, f: Field)
    requires Report(w, read).Some? && w.file.value.checkpoint.None?
    ensures Report(w, read).value(f) + Unseen(w.kernel.counters, read)(f) == Held(w)(f)
  {
  }

  /** A stored revoke keeps what the agent holds exactly when its reading misses nothing,
      or, when an earlier revoke left a checkpoint, when that is nowhere above the offset
      from which it is recomputed. What it reports afterwards is what it holds, so that
      the report falls, if the last one read objects that the revoke does not, exactly
      where they had counted. */
  ghost predicate RevokeKeeps(w: World, w': World, reported: bool, shown: set<Object>, read: set<Object>, after: set<Object>)
    requires w.file.Some?
  {
    var checkpoint, offset := w.file.value.checkpoint, w.file.value.offset;
    && (Leq(Held(w), Held(w')) <==> if checkpoint.None? then ReadsAll(w.kernel, read) else Leq(checkpoint.value, offset))
    && Report(w', after) == Some(Held(w'))
    && (reported ==>
          Report(w, shown).Some? &&
          (Leq(Report(w, shown).value, Held(w')) <==>
           if checkpoint.None? then ReadsAll(Kernel({}, Seen(w.kernel.counters, shown)), read) else Leq(checkpoint.value, offset)))
  }

  lemma RevokeKeepsReportExactly(role: Role, events: seq<Event>, late: Counters, shown: set<Object>, read: set<Object>, after: set<Object>)
    requires PossibleRun(role, events) && Run(role, events).phase.Idle? && Run(role, events).file.Some?
    ensures var w := Run(role, events);
            RevokeKeeps(w, Step(w, role, Revoke(late, true, read)), IsReported(StandingOf(role, events)), shown, read, after)
  {
    RunKeeps(role, events);
    ReportedExactly(role, events, shown, TransitSent);
    RevokeKeepsAt(Run(role, events), role, IsReported(StandingOf(role, events)), late, shown, read, after);
  }

  lemma RevokeKeepsAt(w: World, role: Role, reported: bool, late: Counters, shown: set<Object>, read: set<Object>, after: set<Object>)
    requires Inv(w, role) && w.phase.Idle? && w.file.Some? && (reported ==> Report(w, shown).Some?)
    ensures RevokeKeeps(w, Step(w, role, Revoke(late, true, read)), reported, shown, read, after)
  {
    RevokeKeepsExactly(w, role, late, read);
    if reported {
      RevokeKeepsReported(w, role, late, shown, read);
    }
  }

  lemma RevokeKeepsReported(w: World, role: Role, late: Counters, shown: set<Object>, read: set<Object>)
    requires Inv(w, role) && w.phase.Idle? && w.file.Some? && Report(w, shown).Some?
    ensures var w' := Step(w, role, Revoke(late, true, read));
            Leq(Report(w, shown).value, Held(w')) <==>
            if w.file.value.checkpoint.None? then ReadsAll(Kernel({}, Seen(w.kernel.counters, shown)), read)
            else Leq(w.file.value.checkpoint.value, w.file.value.offset)
  {
    var w' := Step(w, role, Revoke(late, true, read));
    assert forall f :: Held(w')(f) == w.file.value.offset(f) + Seen(w.kernel.counters, read)(f);
    if w.file.value.checkpoint.Some? {
      assert forall f :: w.kernel.counters(f) == 0;
    } else {
      forall f ensures Report(w, shown).value(f) == w.file.value.offset(f) + Seen(w.kernel.counters, shown)(f) {
        ReportHidesUnread(w, shown, f);
      }
    }
  }

  lemma RevokeKeepsExactly(w: World, role: Role, late: Counters, read: set<Object>)
    requires Inv(w, role) && w.phase.Idle? && w.file.Some?
    ensures var checkpoint, offset := w.file.value.checkpoint, w.file.value.offset;
            Leq(Held(w), Held(Step(w, role, Revoke(late, true, read)))) <==>
            if checkpoint.None? then ReadsAll(w.kernel, read) else Leq(checkpoint.value, offset)
  {
    var w' := Step(w, role, Revoke(late, true, read));
    assert forall f :: Held(w')(f) == w.file.value.offset(f) + Seen(w.kernel.counters, read)(f);
    if w.file.value.checkpoint.Some? {
      assert forall f :: w.kernel.counters(f) == 0;
    } else {
      assert forall f :: Held(w)(f) == w.file.value.offset(f) + w.kernel.counters(f);
    }
  }

  /** The first revoke drops from the report what it failed to read, and nothing if it
      read all; a repeated one drops it by exactly what the first had read, that is, by
      the traffic since the last commit. */
  lemma RepeatedRevokeDropsTraffic(role: Role, events: seq<Event>, first: set<Object>, second: set<Object>, f: Field)
    requires PossibleRun(role, events) && Run(role, events).phase.Idle?
    requires Run(role, events).file.Some? && Run(role, events).file.value.checkpoint.None?
    ensures var w := Run(role, events);
            var once := Step(w, role, Revoke(ZERO, true, first));
            var twice := Step(once, role, Revoke(ZERO, true, second));
            && Held(once)(f) + Unseen(w.kernel.counters, first)(f) == Held(w)(f)
            && Held(twice)(f) + Seen(w.kernel.counters, first)(f) == Held(once)(f)
            && Report(once, first) == Some(Held(once)) && Report(twice, second) == Some(Held(twice))
  {
  }

  // ---- Lifecycle ----

  /** Once revoked, an assignment's interfaces and rules stay absent until it is prepared
      again: commits, stops and further revokes bring none of them back. */
  lemma RevokedStaysAbsent(role: Role, events: seq<Event>, i: nat)
    requires PossibleRun(role, events) && i <= |events|
    requires Run(role, events[..i]).file.Some? && Run(role, events[..i]).file.value.revoked
    requires forall k :: i <= k < |events| && events[k].Prepare? ==> !events[k].ok
    ensures var w := Run(role, events); w.file.Some? && w.file.value.revoked && w.kernel.present == {}
  {
    StaysRevoked(role, events, i);
    RunKeeps(role, events);
  }

  lemma {:induction false} StaysRevoked(role: Role, events: seq<Event>, i: nat)
    requires PossibleRun(role, events) && i <= |events|
    requires Run(role, events[..i]).file.Some? && Run(role, events[..i]).file.value.revoked
    requires forall k :: i <= k < |events| && events[k].Prepare? ==> !events[k].ok
    ensures var w := Run(role, events); w.file.Some? && w.file.value.revoked
    decreases |events|
  {
    if i == |events| {
      assert events[..i] == events;
    } else {
      var n := |events| - 1;
      var init := events[..n];
      PrefixPossible(role, events);
      Prefixes(events);
      StaysRevoked(role, init, i);
      RunKeeps(role, init);
      RevokedStep(Run(role, init), role, events[n]);
    }
  }

  lemma RevokedStep(w: World, role: Role, e: Event)
    requires Inv(w, role) && w.file.Some? && w.file.value.revoked && (e.Prepare? ==> !e.ok)
    ensures Step(w, role, e).file.Some? && Step(w, role, e).file.value.revoked
  {
  }

  /** Between revokes the material never changes: any number of prepares answers with
      the same keys and ports, whatever commits, failures and reboots come between. */
  lemma {:induction false} MaterialKept(role: Role, events: seq<Event>, i: nat)
    requires PossibleRun(role, events) && i <= |events|
    requires Run(role, events[..i]).file.Some? && !Run(role, events[..i]).file.value.revoked
    requires forall k :: i <= k < |events| ==> !events[k].Revoke?
    ensures var was, now := Run(role, events[..i]).file, Run(role, events).file;
            && now.Some? && !now.value.revoked && now.value.material == was.value.material
            && now.value.clientKey == was.value.clientKey && now.value.transitKey == was.value.transitKey
    decreases |events|
  {
    if i == |events| {
      assert events[..i] == events;
    } else {
      var n := |events| - 1;
      var init := events[..n];
      PrefixPossible(role, events);
      Prefixes(events);
      MaterialKept(role, init, i);
      RunKeeps(role, init);
      MaterialStep(Run(role, init), role, events[n]);
    }
  }

  lemma MaterialStep(w: World, role: Role, e: Event)
    requires Inv(w, role) && w.file.Some? && !w.file.value.revoked && !e.Revoke?
    ensures var was, now := w.file, Step(w, role, e).file;
            && now.Some? && !now.value.revoked && now.value.material == was.value.material
            && now.value.clientKey == was.value.clientKey && now.value.transitKey == was.value.transitKey
  {
  }
}
