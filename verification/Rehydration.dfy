/** Rehydration: when the agent starts it commits again every assignment that was
    committed, is not revoked, and whose kernel objects are missing. */
module Rehydration {
  import opened Options
  import opened AssignmentLedger
  import opened GateAgentJobs

  datatype Assignment = Assignment(role: Role, world: World)

  type Gate = map<string, Assignment>

  datatype Result = Result(rehydrated: nat, failed: nat)

  /** The objects an assignment must have in the kernel. */
  function Needed(role: Role): set<Object> {
    if role.Ingress? then {Client, Transit, Forward} else {Transit, Forward, Nat}
  }

  predicate Live(a: Assignment) {
    a.world.file.Some? && a.world.file.value.committed && !a.world.file.value.revoked
  }

  /** `assignmentKernelStatePresent`: `shown` are the objects whose tools answer, and show
      for a client tunnel the parameters it should have. */
  predicate Present(a: Assignment, shown: set<Object>) {
    Live(a) && Needed(a.role) <= a.world.kernel.present * shown
  }

  /** Committed, not revoked, and missing from the kernel as far as the tools show. */
  predicate Missing(a: Assignment, shown: set<Object>) { Live(a) && !Present(a, shown) }

  /** How the tools of one assignment behave in a pass. */
  datatype Tools = Tools(shown: set<Object>, script: CommitScript)

  function Recommitted(a: Assignment, script: CommitScript): Assignment {
    a.(world := Committed(a.world, a.role, script))
  }

  /** One entry: commits the assignment again if it is missing, and counts how that went. */
  function Visit(gate: Gate, result: Result, id: string, tools: Tools): (Gate, Result) {
    if id in gate && Missing(gate[id], tools.shown) then
      (gate[id := Recommitted(gate[id], tools.script)],
       if Succeeds(gate[id].world, gate[id].role, tools.script) then result.(rehydrated := result.rehydrated + 1)
       else result.(failed := result.failed + 1))
    else (gate, result)
  }

  /** The gate after the entries, and how their commits went. */
  function Rehydrated(gate: Gate, entries: seq<string>, tools: string -> Tools): (Gate, Result) {
    if entries == [] then (gate, Result(0, 0))
    else
      var (g, r) := Rehydrated(gate, entries[..|entries| - 1], tools);
      Visit(g, r, entries[|entries| - 1], tools(entries[|entries| - 1]))
  }

  method RehydrateAssignments(gate: Gate, entries: seq<string>, tools: string -> Tools)
      returns (after: Gate, result: Result)
    ensures (after, result) == Rehydrated(gate, entries, tools)
  {
    after, result := gate, Result(0, 0);
    for i := 0 to |entries|
      invariant (after, result) == Rehydrated(gate, entries[..i], tools)
    {
      var id := entries[i];
      assert entries[..i + 1][..i] == entries[..i];
      if id !in after {
        continue;
      }
      var state := after[id].world.file;
      if state.None? || !state.value.committed || state.value.revoked {
        continue;
      }
      if Present(after[id], tools(id).shown) {
        continue;
      }
      var ok := Succeeds(after[id].world, after[id].role, tools(id).script);
      after := after[id := Recommitted(after[id], tools(id).script)];
      if !ok {
        result := result.(failed := result.failed + 1);
        continue;
      }
      result := result.(rehydrated := result.rehydrated + 1);
    }
    assert entries[..|entries|] == entries;
  }

  ghost predicate Distinct(entries: seq<string>) {
    forall i, j :: 0 <= i < j < |entries| ==> entries[i] != entries[j]
  }

  /** The entries of the gate that need rehydration. */
  function MissingOnes(gate: Gate, entries: seq<string>, tools: string -> Tools): set<string> {
    set id | id in entries && id in gate && Missing(gate[id], tools(id).shown)
  }

  /** A commit that succeeds leaves the assignment present by the agent's own test,
      exactly when the tools show all it needs. */
  lemma SuccessIsPresent(a: Assignment, script: CommitScript, shown: set<Object>)
    requires a.world.phase.Idle? && a.world.file.Some? && !a.world.file.value.revoked && Succeeds(a.world, a.role, script)
    ensures Present(Recommitted(a, script), shown) <==> Needed(a.role) <= shown
    ensures Live(Recommitted(a, script)) && Recommitted(a, script).world.phase.Idle?
    ensures Needed(a.role) <= Recommitted(a, script).world.kernel.present
  {
    var w1 := Step(a.world, a.role, CommitStart(script.valid, script.read));
    var w2 := Step(w1, a.role, Saved(script.saved));
    var w3 := Step(w2, a.role, RulesDropped);
    var w4 := Step(w3, a.role, ClientConfigured(script.client));
    assert a.role.Ingress? ==> Client in w4.kernel.present;
    assert w4.phase == ConfiguringTransit(w2.phase.state);
    var w5 := Step(w4, a.role, TransitConfigured(script.transit));
    assert w5.phase == AddingRules(w2.phase.state) && Transit in w5.kernel.present;
    var w6 := Step(w5, a.role, RulesAdded(script.someRules, script.allRules));
    assert w6.phase.Marking? && Needed(a.role) <= w6.kernel.present;
  }

  /** What a pass looks for is what is in service: last committed, and not revoked or
      prepared anew since. */
  lemma LiveIsInService(role: Role, events: seq<Event>)
    requires PossibleRun(role, events)
    ensures Live(Assignment(role, Run(role, events))) <==> StandingOf(role, events) == InService
  {
    StandingHolds(role, events);
  }

  /** What is looked for in the kernel is just what a whole commit leaves there. */
  lemma NeededIsBuilt(a: Assignment, script: CommitScript)
    requires Inv(a.world, a.role) && a.world.phase.Idle? && !a.world.file.None? && Succeeds(a.world, a.role, script)
    ensures Recommitted(a, script).world.kernel.present == Needed(a.role)
  {
    var w3 := Step(Step(Step(a.world, a.role, CommitStart(script.valid, script.read)), a.role, Saved(script.saved)), a.role, RulesDropped);
    assert w3.kernel.present == a.world.kernel.present - {Forward, Nat};
    var w4 := Step(w3, a.role, ClientConfigured(script.client));
    assert w4.phase.ConfiguringTransit? && (a.role.Ingress? ==> Client in w4.kernel.present);
    forall o | o in w4.kernel.present ensures o == Transit || (o == Client && a.role.Ingress?) {
      assert o != Forward && o != Nat;
    }
    var w5 := Step(w4, a.role, TransitConfigured(script.transit));
    assert w5.kernel.present == w4.kernel.present + {Transit};
  }

  lemma MissingAppend(gate: Gate, init: seq<string>, id: string, tools: string -> Tools)
    requires id !in init
    ensures id !in MissingOnes(gate, init, tools)
    ensures MissingOnes(gate, init + [id], tools) ==
            MissingOnes(gate, init, tools) + if id in gate && Missing(gate[id], tools(id).shown) then {id} else {}
  {
  }

  /** The pass judges each assignment by its state at the start and touches no other. */
  lemma {:induction false} EachOnce(gate: Gate, entries: seq<string>, tools: string -> Tools)
    requires Distinct(entries)
    ensures var g := Rehydrated(gate, entries, tools).0;
            && g.Keys == gate.Keys
            && forall id :: id in gate ==>
                 g[id] == if id in MissingOnes(gate, entries, tools) then Recommitted(gate[id], tools(id).script) else gate[id]
  {
    if entries != [] {
      var init, id := entries[..|entries| - 1], entries[|entries| - 1];
      assert id in entries && entries == init + [id];
      EachOnce(gate, init, tools);
      MissingAppend(gate, init, id, tools);
      var g := Rehydrated(gate, init, tools).0;
      assert id in gate ==> g[id] == gate[id];
    }
  }

  lemma {:induction false} EachCounted(gate: Gate, entries: seq<string>, tools: string -> Tools)
    requires Distinct(entries)
    ensures var r := Rehydrated(gate, entries, tools).1;
            && r.rehydrated + r.failed == |MissingOnes(gate, entries, tools)|
            && (r.failed == 0 <==> forall id :: id in MissingOnes(gate, entries, tools) ==>
                  Succeeds(gate[id].world, gate[id].role, tools(id).script))
  {
    if entries != [] {
      var init, id := entries[..|entries| - 1], entries[|entries| - 1];
      assert id in entries && entries == init + [id];
      EachCounted(gate, init, tools);
      EachOnce(gate, init, tools);
      MissingAppend(gate, init, id, tools);
      var (g, r) := Rehydrated(gate, init, tools);
      assert id in g <==> id in gate;
      assert id in gate ==> g[id] == gate[id];
      CountOne(gate, g, r, MissingOnes(gate, init, tools), id, tools);
    }
  }

  lemma CountOne(gate: Gate, g: Gate, r: Result, missing: set<string>, id: string, tools: string -> Tools)
    requires (id in g <==> id in gate) && (id in gate ==> g[id] == gate[id]) && id !in missing && missing <= gate.Keys
    requires r.rehydrated + r.failed == |missing|
    requires r.failed == 0 <==> forall k :: k in missing ==> Succeeds(gate[k].world, gate[k].role, tools(k).script)
    ensures var r' := Visit(g, r, id, tools(id)).1;
            var missing' := missing + if id in gate && Missing(gate[id], tools(id).shown) then {id} else {};
            && r'.rehydrated + r'.failed == |missing'|
            && (r'.failed == 0 <==> forall k :: k in missing' ==> Succeeds(gate[k].world, gate[k].role, tools(k).script))
  {
  }

  /** Rehydrated and failed together are the assignments that were committed, unrevoked
      and missing; nothing else is touched; and after a pass without failures a second
      pass whose tools answer changes nothing, whatever its commands would do. */
  lemma SecondPassIsIdle(gate: Gate, entries: seq<string>, tools: string -> Tools, later: string -> Tools)
    requires Distinct(entries)
    requires forall id :: id in gate ==> gate[id].world.phase.Idle? && Needed(gate[id].role) <= later(id).shown
    ensures var (g, r) := Rehydrated(gate, entries, tools);
            && r.rehydrated + r.failed == |MissingOnes(gate, entries, tools)|
            && (forall id :: id in gate && id !in MissingOnes(gate, entries, tools) ==> id in g && g[id] == gate[id])
            && (r.failed == 0 ==> Rehydrated(g, entries, later) == (g, Result(0, 0)))
  {
    EachOnce(gate, entries, tools);
    EachCounted(gate, entries, tools);
    var (g, r) := Rehydrated(gate, entries, tools);
    if r.failed == 0 {
      forall id | id in entries && id in g ensures !Missing(g[id], later(id).shown) {
        if id in MissingOnes(gate, entries, tools) {
          SuccessIsPresent(gate[id], tools(id).script, later(id).shown);
        }
      }
      NothingMissing(g, entries, later);
    }
  }

  lemma {:induction false} NothingMissing(gate: Gate, entries: seq<string>, tools: string -> Tools)
    requires forall id :: id in entries && id in gate ==> !Missing(gate[id], tools(id).shown)
    ensures Rehydrated(gate, entries, tools) == (gate, Result(0, 0))
  {
    if entries != [] {
      NothingMissing(gate, entries[..|entries| - 1], tools);
    }
  }
}
