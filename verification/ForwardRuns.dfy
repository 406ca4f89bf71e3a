/** Any number of assignments in one forward chain, over every order of single deletions,
    single added rules, and packets: verdicts and counters are those of the rules in
    place, and the plan's while a whole block is. */
module ForwardRuns {
  import opened Options
  import opened ForwardPolicy
  import opened SharedForwardChain
  import opened ForwardBlocks

  datatype World = World(chain: seq<Installed>, next: nat, entries: map<string, Entry>)

  const INITIAL := World([], 0, map[])

  /** A commit deletes its rules one by one, begins anew with its plan when none is left,
      and adds one by one; a revoke deletes them and leaves. Either may stop anywhere. */
  datatype Event =
    | Delete(handle: string)
    | Begin(handle: string, plan: Plan)
    | Add(handle: string)
    | Leave(handle: string)
    | Traffic(packet: Packet)

  predicate MayDelete(w: World, h: string) { h in w.entries && w.entries[h].from < w.entries[h].until }

  predicate MayBegin(w: World, h: string) { h in w.entries ==> w.entries[h].from == w.entries[h].until }

  predicate MayAdd(w: World, h: string) {
    h in w.entries && w.entries[h].from == 0 && w.entries[h].until < Size(w.entries[h].plan)
  }

  function NewRule(w: World, h: string): Installed
    requires MayAdd(w, h)
  {
    Installed(w.next, Block(h, w.entries[h].plan)[w.entries[h].until], 0, 0)
  }

  function Step(w: World, e: Event): World {
    match e
    case Delete(h) =>
      if !MayDelete(w, h) then w
      else w.(chain := DropFirst(w.chain, OwnedBy(h)), entries := w.entries[h := w.entries[h].(from := w.entries[h].from + 1)])
    case Begin(h, plan) => if !MayBegin(w, h) then w else w.(entries := w.entries[h := Entry(plan, 0, 0, [])])
    case Add(h) =>
      if !MayAdd(w, h) then w
      else w.(chain := w.chain + [NewRule(w, h)], next := w.next + 1,
              entries := w.entries[h := w.entries[h].(until := w.entries[h].until + 1)])
    case Leave(h) => if !MayBegin(w, h) then w else w.(entries := w.entries - {h})
    case Traffic(p) => w.(chain := Passed(w.chain, p), entries := map h | h in w.entries :: if OnPair(w.entries[h].plan, p) then Seen(w.entries[h], p) else w.entries[h])
  }

  /** No interface pair belongs to both plans, in either direction. */
  predicate Apart(a: Plan, b: Plan) {
    && !(a.inner == b.inner && a.outer == b.outer)
    && !(a.inner == b.outer && a.outer == b.inner)
  }

  /** Handles without separators, and interfaces not shared with another assignment. */
  predicate Possible(w: World, e: Event) {
    match e
    case Begin(h, plan) =>
      && NoColon(h) && plan.inner != plan.outer
      && forall g :: g in w.entries && g != h ==> Apart(plan, w.entries[g].plan)
    case _ => true
  }

  function Run(events: seq<Event>): World {
    if events == [] then INITIAL else Step(Run(events[..|events| - 1]), events[|events| - 1])
  }

  ghost predicate PossibleRun(events: seq<Event>) {
    events != [] ==> PossibleRun(events[..|events| - 1]) && Possible(Run(events[..|events| - 1]), events[|events| - 1])
  }

  // ---- Interface names ----

  function ClientName(short: string): string { "hsc" + short }

  function TransitName(role: string, short: string): string { "hst" + (if role == "Egress" then "e" else "i") + short }

  function IngressPlan(short: string, client: Cidr, cidrs: seq<Cidr>): Plan {
    Plan(ClientName(short), TransitName("Ingress", short), client, cidrs)
  }

  function EgressPlan(short: string, physical: string, client: Cidr, cidrs: seq<Cidr>): Plan {
    Plan(TransitName("Egress", short), physical, client, cidrs)
  }

  /** Names made from distinct short ids keep assignments apart, even though all egress
      assignments share the physical interface. */
  lemma NamesKeepApart(a: string, b: string, physical: string, x: Cidr, y: Cidr, cs: seq<Cidr>, ds: seq<Cidr>)
    requires a != b && !("hs" <= physical)
    ensures Apart(IngressPlan(a, x, cs), IngressPlan(b, y, ds))
    ensures Apart(EgressPlan(a, physical, x, cs), EgressPlan(b, physical, y, ds))
    ensures Apart(IngressPlan(a, x, cs), EgressPlan(b, physical, y, ds))
    ensures IngressPlan(a, x, cs).inner != IngressPlan(a, x, cs).outer
    ensures EgressPlan(a, physical, x, cs).inner != physical
  {
    assert ClientName(a)[3..] == a && ClientName(b)[3..] == b;
    assert TransitName("Egress", a)[4..] == a && TransitName("Egress", b)[4..] == b;
    assert TransitName("Ingress", a)[4..] == a;
    assert ClientName(a)[2] == 'c' && TransitName("Ingress", b)[2] == 't' && TransitName("Ingress", a)[2] == 't';
    assert TransitName("Egress", b)[2] == 't' && TransitName("Egress", a)[2] == 't';
    assert TransitName("Egress", a)[..2] == "hs" && TransitName("Egress", b)[..2] == "hs";
    assert ClientName(a)[..2] == "hs";
  }

  // ---- The invariant ----

  lemma HeadingIsOwned(h: string, v: Verdict, d: Direction)
    ensures forall c :: HeadedBy(h, v, d)(c) ==> OwnedBy(h)(c)
  {
  }

  /** Only a handle's own rules enter what is read back for it. */
  lemma CountersOfMine(chain: seq<Installed>, h: string, v: Verdict, d: Direction, q: Quantity)
    ensures CountersOf(chain, h, v, d, q) == CountersOf(Mine(chain, h), h, v, d, q)
  {
    HeadingIsOwned(h, v, d);
    TotalOfSelect(chain, OwnedBy(h), HeadedBy(h, v, d), q);
  }

  /** The handle finds just the rules in place, in order, with their counts. */
  ghost predicate Found(w: World, h: string) { h in w.entries && MineFits(Mine(w.chain, h), h, w.entries[h]) }

  predicate PlansApart(w: World, g: string, h: string) {
    g in w.entries && h in w.entries && Apart(w.entries[g].plan, w.entries[h].plan)
  }

  predicate OwnedBySome(w: World, r: Installed) { exists h :: h in w.entries && OwnedBy(h)(r.rule.comment) }

  ghost predicate AllFound(w: World) { forall h :: h in w.entries ==> Found(w, h) }

  ghost predicate AllApart(w: World) { forall g, h :: g in w.entries && h in w.entries && g != h ==> PlansApart(w, g, h) }

  ghost predicate AllOwned(w: World) { forall r :: r in w.chain ==> OwnedBySome(w, r) }

  ghost predicate Inv(w: World) { AllFound(w) && AllApart(w) && AllOwned(w) }

  lemma {:induction false} SelectHas(chain: seq<Installed>, test: Test, r: Installed)
    requires r in chain && test(r.rule.comment)
    ensures r in Select(chain, test)
  {
    var n := |chain| - 1;
    if r != chain[n] {
      assert r in chain[..n];
      SelectHas(chain[..n], test, r);
    }
  }

  /** A rule lies on the pair of its owner. */
  lemma OwnersPair(w: World, g: string, r: Installed)
    requires Found(w, g) && r in w.chain && OwnedBy(g)(r.rule.comment)
    ensures RuleOn(w.entries[g].plan, r.rule)
  {
    var mine, e := Mine(w.chain, g), w.entries[g];
    SelectHas(w.chain, OwnedBy(g), r);
    var k :| 0 <= k < |mine| && mine[k] == r;
    assert Rules(mine)[k] == r.rule;
    assert r.rule in Block(g, e.plan)[e.from..e.until];
    BlockIsOwned(g, e.plan);
  }

  /** A packet on a pair can only match rules of its owner. */
  lemma PairMatchesOwn(w: World, h: string, p: Packet)
    requires Inv(w) && h in w.entries && OnPair(w.entries[h].plan, p)
    ensures forall i :: 0 <= i < |w.chain| && Matches(w.chain[i].rule, p) ==> OwnedBy(h)(w.chain[i].rule.comment)
  {
    forall i | 0 <= i < |w.chain| && Matches(w.chain[i].rule, p) ensures OwnedBy(h)(w.chain[i].rule.comment) {
      OwnerOfMatch(w, h, p, w.chain[i]);
    }
  }

  lemma OwnerOfMatch(w: World, h: string, p: Packet, r: Installed)
    requires Inv(w) && h in w.entries && OnPair(w.entries[h].plan, p) && r in w.chain && Matches(r.rule, p)
    ensures OwnedBy(h)(r.rule.comment)
  {
    assert OwnedBySome(w, r);
    var g :| g in w.entries && OwnedBy(g)(r.rule.comment);
    assert Found(w, g);
    OwnersPair(w, g, r);
    assert g != h ==> PlansApart(w, g, h);
  }

  // ---- Every step keeps it ----

  lemma ApartStays(w: World, w': World)
    requires AllApart(w) && forall h :: h in w'.entries ==> h in w.entries && w'.entries[h].plan == w.entries[h].plan
    ensures AllApart(w')
  {
    forall g, h | g in w'.entries && h in w'.entries && g != h ensures PlansApart(w', g, h) {
      assert PlansApart(w, g, h);
    }
  }

  lemma OwnedStays(w: World, w': World)
    requires AllOwned(w) && w.entries.Keys <= w'.entries.Keys && forall r :: r in w'.chain ==> r in w.chain
    ensures AllOwned(w')
  {
    forall r | r in w'.chain ensures OwnedBySome(w', r) {
      assert OwnedBySome(w, r);
      var h :| h in w.entries && OwnedBy(h)(r.rule.comment);
      assert h in w'.entries;
    }
  }

  lemma FoundAfter(w: World, h: string, mine: seq<Installed>, e: Entry)
    requires h in w.entries && w.entries[h] == e && Mine(w.chain, h) == mine && MineFits(mine, h, e)
    ensures Found(w, h)
  {
  }

  lemma DeleteFound(w: World, h: string)
    requires Found(w, h) && MayDelete(w, h)
    ensures Found(Step(w, Delete(h)), h)
  {
    var mine, e := Mine(w.chain, h), w.entries[h];
    DroppedFits(mine, h, e);
    OneDeletionIsExact(w.chain, h, h);
    FoundAfter(Step(w, Delete(h)), h, mine[1..], e.(from := e.from + 1));
  }

  lemma DeleteFoundOther(w: World, h: string, g: string)
    requires Found(w, g) && Found(w, h) && MayDelete(w, h) && g != h
    ensures Found(Step(w, Delete(h)), g)
  {
    OneDeletionIsExact(w.chain, g, h);
    FoundAfter(Step(w, Delete(h)), g, Mine(w.chain, g), w.entries[g]);
  }

  lemma DeleteKeeps(w: World, h: string)
    requires Inv(w) && MayDelete(w, h)
    ensures Inv(Step(w, Delete(h)))
  {
    var w' := Step(w, Delete(h));
    forall g | g in w'.entries ensures Found(w', g) {
      assert Found(w, g) && Found(w, h);
      if g == h {
        DeleteFound(w, h);
      } else {
        DeleteFoundOther(w, h, g);
      }
    }
    ApartStays(w, w');
    DropFirstSubset(w.chain, OwnedBy(h));
    OwnedStays(w, w');
  }

  lemma NoneLeft(w: World, h: string)
    requires Inv(w) && MayBegin(w, h) && NoColon(h)
    ensures Mine(w.chain, h) == []
  {
    if h in w.entries {
      assert Found(w, h);
      assert |Rules(Mine(w.chain, h))| == 0;
    } else {
      forall i | 0 <= i < |w.chain| ensures !OwnedBy(h)(w.chain[i].rule.comment) {
        NotOwnedByStranger(w, h, w.chain[i]);
      }
      SelectNone(w.chain, OwnedBy(h));
    }
  }

  lemma NotOwnedByStranger(w: World, h: string, r: Installed)
    requires Inv(w) && NoColon(h) && h !in w.entries && r in w.chain
    ensures !OwnedBy(h)(r.rule.comment)
  {
    assert OwnedBySome(w, r);
    var g :| g in w.entries && OwnedBy(g)(r.rule.comment);
    assert Found(w, g);
    if OwnedBy(h)(r.rule.comment) {
      OwnedUnique(r.rule.comment, g, h);
    }
  }

  lemma BeginKeeps(w: World, h: string, plan: Plan)
    requires Inv(w) && MayBegin(w, h) && Possible(w, Begin(h, plan))
    ensures Inv(Step(w, Begin(h, plan)))
  {
    var w' := Step(w, Begin(h, plan));
    NoneLeft(w, h);
    FreshFits(h, plan);
    forall g | g in w'.entries ensures Found(w', g) {
      assert g != h ==> Found(w, g);
    }
    forall g, k | g in w'.entries && k in w'.entries && g != k ensures PlansApart(w', g, k) {
      assert g != h && k != h ==> PlansApart(w, g, k);
    }
    OwnedStays(w, w');
  }

  lemma LeaveKeeps(w: World, h: string)
    requires Inv(w) && MayBegin(w, h)
    ensures Inv(Step(w, Leave(h)))
  {
    var w' := Step(w, Leave(h));
    forall g | g in w'.entries ensures Found(w', g) {
      assert Found(w, g);
    }
    ApartStays(w, w');
    if h in w.entries {
      assert Found(w, h);
      NoneLeft(w, h);
      LeaveOwned(w, h);
    }
  }

  lemma LeaveOwned(w: World, h: string)
    requires AllOwned(w) && MayBegin(w, h) && h in w.entries && Mine(w.chain, h) == []
    ensures AllOwned(Step(w, Leave(h)))
  {
    forall r | r in w.chain ensures OwnedBySome(Step(w, Leave(h)), r) {
      OwnedByAnother(w, h, r);
    }
  }

  lemma OwnedByAnother(w: World, h: string, r: Installed)
    requires AllOwned(w) && r in w.chain && Mine(w.chain, h) == []
    ensures exists g :: g in w.entries && g != h && OwnedBy(g)(r.rule.comment)
  {
    assert OwnedBySome(w, r);
    var g :| g in w.entries && OwnedBy(g)(r.rule.comment);
    if g == h {
      SelectHas(w.chain, OwnedBy(h), r);
    }
  }

  /** The added rule names its owner. */
  lemma NewIsOwned(w: World, h: string)
    requires Inv(w) && MayAdd(w, h)
    ensures NamedBy(NewRule(w, h).rule.comment, h) && OwnedBy(h)(NewRule(w, h).rule.comment) && NoColon(h)
  {
    assert Found(w, h);
    BlockIsOwned(h, w.entries[h].plan);
    NamesOwner(NewRule(w, h).rule.comment, h, h);
  }

  lemma MineAfterAdd(chain: seq<Installed>, h: string, r: Installed, g: string)
    requires NoColon(g) && NoColon(h) && NamedBy(r.rule.comment, h)
    ensures Mine(chain + [r], g) == if g == h then Mine(chain, g) + [r] else Mine(chain, g)
  {
    NamesOwner(r.rule.comment, g, h);
    assert (chain + [r])[..|chain|] == chain;
  }

  lemma AddFound(w: World, h: string)
    requires Found(w, h) && MayAdd(w, h) && NoColon(h) && NamedBy(NewRule(w, h).rule.comment, h)
    ensures Found(Step(w, Add(h)), h)
  {
    var mine, e, r := Mine(w.chain, h), w.entries[h], NewRule(w, h);
    AddedFits(mine, h, e, r);
    MineAfterAdd(w.chain, h, r, h);
    FoundAfter(Step(w, Add(h)), h, mine + [r], e.(until := e.until + 1));
  }

  lemma AddFoundOther(w: World, h: string, g: string)
    requires Found(w, g) && MayAdd(w, h) && g != h && NoColon(h) && NamedBy(NewRule(w, h).rule.comment, h)
    ensures Found(Step(w, Add(h)), g)
  {
    MineAfterAdd(w.chain, h, NewRule(w, h), g);
    FoundAfter(Step(w, Add(h)), g, Mine(w.chain, g), w.entries[g]);
  }

  lemma AddKeeps(w: World, h: string)
    requires Inv(w) && MayAdd(w, h)
    ensures Inv(Step(w, Add(h)))
  {
    var w' := Step(w, Add(h));
    NewIsOwned(w, h);
    forall g | g in w'.entries ensures Found(w', g) {
      assert Found(w, g);
      if g == h {
        AddFound(w, h);
      } else {
        AddFoundOther(w, h, g);
      }
    }
    ApartStays(w, w');
    AddOwned(w, h);
  }

  lemma AddOwned(w: World, h: string)
    requires Inv(w) && MayAdd(w, h)
    ensures AllOwned(Step(w, Add(h)))
  {
    NewIsOwned(w, h);
    var w' := Step(w, Add(h));
    forall r | r in w'.chain ensures OwnedBySome(w', r) {
      if r in w.chain {
        assert OwnedBySome(w, r);
        var g :| g in w.entries && OwnedBy(g)(r.rule.comment);
        assert g in w'.entries;
      } else {
        assert r == NewRule(w, h) && h in w'.entries;
      }
    }
  }

  // ---- Packets ----

  /** On the pair the packet meets the owner's rules as it would alone. */
  lemma PassedMine(w: World, h: string, p: Packet)
    requires Inv(w) && h in w.entries && OnPair(w.entries[h].plan, p)
    ensures Mine(Passed(w.chain, p), h) == Passed(Mine(w.chain, h), p)
    ensures VerdictOf(w.chain, p) == VerdictOf(Mine(w.chain, h), p)
  {
    PairMatchesOwn(w, h, p);
    SelectionDecides(w.chain, p, OwnedBy(h));
  }

  /** A packet off the pair leaves the handle's rules alone. */
  lemma OffPair(w: World, h: string, p: Packet)
    requires Inv(w) && h in w.entries && !OnPair(w.entries[h].plan, p)
    ensures Mine(Passed(w.chain, p), h) == Mine(w.chain, h)
  {
    forall i | 0 <= i < |w.chain| && Matches(w.chain[i].rule, p) ensures !OwnedBy(h)(w.chain[i].rule.comment) {
      if OwnedBy(h)(w.chain[i].rule.comment) {
        assert Found(w, h);
        OwnersPair(w, h, w.chain[i]);
      }
    }
    SelectionSpared(w.chain, p, OwnedBy(h));
  }

  lemma TrafficFound(w: World, p: Packet, h: string)
    requires Inv(w) && h in w.entries
    ensures Found(Step(w, Traffic(p)), h)
  {
    assert Found(w, h);
    if OnPair(w.entries[h].plan, p) {
      PassedMine(w, h, p);
      SightedFits(Mine(w.chain, h), h, w.entries[h], p);
    } else {
      OffPair(w, h, p);
    }
  }

  lemma PassedOwned(w: World, p: Packet)
    requires AllOwned(w)
    ensures forall r :: r in Passed(w.chain, p) ==> OwnedBySome(w, r)
  {
    PassedRules(w.chain, p);
    forall r | r in Passed(w.chain, p) ensures OwnedBySome(w, r) {
      var i :| 0 <= i < |Passed(w.chain, p)| && Passed(w.chain, p)[i] == r;
      assert r.rule == Rules(Passed(w.chain, p))[i] == Rules(w.chain)[i] == w.chain[i].rule;
      assert OwnedBySome(w, w.chain[i]);
    }
  }

  lemma TrafficKeeps(w: World, p: Packet)
    requires Inv(w)
    ensures Inv(Step(w, Traffic(p)))
  {
    var w' := Step(w, Traffic(p));
    forall h | h in w'.entries ensures Found(w', h) {
      TrafficFound(w, p, h);
    }
    ApartStays(w, w');
    PassedOwned(w, p);
    forall r | r in w'.chain ensures OwnedBySome(w', r) {
      assert OwnedBySome(w, r);
      var h :| h in w.entries && OwnedBy(h)(r.rule.comment);
      assert h in w'.entries;
    }
  }

  lemma StepKeeps(w: World, e: Event)
    requires Inv(w) && Possible(w, e)
    ensures Inv(Step(w, e))
  {
    match e
    case Delete(h) => if MayDelete(w, h) { DeleteKeeps(w, h); }
    case Begin(h, plan) => if MayBegin(w, h) { BeginKeeps(w, h, plan); }
    case Add(h) => if MayAdd(w, h) { AddKeeps(w, h); }
    case Leave(h) => if MayBegin(w, h) { LeaveKeeps(w, h); }
    case Traffic(p) => TrafficKeeps(w, p);
  }

  lemma {:induction false} RunKeeps(events: seq<Event>)
    requires PossibleRun(events)
    ensures Inv(Run(events))
  {
    if events != [] {
      RunKeeps(events[..|events| - 1]);
      StepKeeps(Run(events[..|events| - 1]), events[|events| - 1]);
    }
  }

  // ---- The results ----

  /** The drop rule for the packet's direction is in place. */
  predicate DropInPlace(e: Entry, p: Packet) { e.from <= Place(e.plan, |e.plan.cidrs|, p) < e.until }

  /** What a packet on the pair of `h` gets.  It is accepted exactly when a rule in place
      admits it, and slips exactly when none does and the drop rule of its direction is
      not in place.  It is never accepted against the plan, and dropped against the plan
      exactly when the rules that admit it are missing and that drop rule is not.  Before
      any deletion it gets the plan's verdict or slips, and with the whole block it gets
      the plan's verdict. */
  ghost predicate GetsVerdict(w: World, h: string, p: Packet)
    requires h in w.entries && OnPair(w.entries[h].plan, p)
  {
    var e := w.entries[h];
    var verdict, policy := VerdictOf(w.chain, p), Policy(e.plan, p);
    && (verdict == Some(Accept) <==> Admitted(e.plan, e.from, e.until, p))
    && (verdict == None <==> !Admitted(e.plan, e.from, e.until, p) && !DropInPlace(e, p))
    && (verdict == Some(Accept) ==> policy == Accept)
    && (verdict == Some(Drop) && policy == Accept <==>
          Admitted(e.plan, 0, Size(e.plan), p) && !Admitted(e.plan, e.from, e.until, p) && DropInPlace(e, p))
    && (e.from == 0 && verdict.Some? ==> verdict == Some(policy))
    && (Whole(e) ==> verdict == Some(policy))
  }

  lemma PairGetsVerdict(w: World, h: string, p: Packet)
    requires Inv(w) && h in w.entries && OnPair(w.entries[h].plan, p)
    ensures GetsVerdict(w, h, p)
  {
    assert Found(w, h);
    PassedMine(w, h, p);
    FoundSay(Mine(w.chain, h), h, w.entries[h], p);
    RemainderMeans(w.entries[h].plan, w.entries[h].from, w.entries[h].until, p);
    RemainderAgainstPolicy(w.entries[h].plan, w.entries[h].from, w.entries[h].until, p);
  }

  /** A packet on no assignment's pair meets no rule and raises no counter. */
  lemma NobodysPacket(w: World, p: Packet)
    requires Inv(w) && forall g :: g in w.entries ==> !OnPair(w.entries[g].plan, p)
    ensures VerdictOf(w.chain, p) == None && Passed(w.chain, p) == w.chain
  {
    forall i | 0 <= i < |w.chain| ensures !Matches(w.chain[i].rule, p) {
      assert OwnedBySome(w, w.chain[i]);
      var g :| g in w.entries && OwnedBy(g)(w.chain[i].rule.comment);
      assert Found(w, g);
      OwnersPair(w, g, w.chain[i]);
    }
    FirstHit(w.chain, |w.chain|, p);
  }

  /** However single deletions, single additions and packets of all assignments interleave,
      a packet on a pair gets what the rules in place say, with its exact relation to the
      plan, and a packet on nobody's pair meets no rule. */
  lemma VerdictsArePolicies(events: seq<Event>, p: Packet)
    requires PossibleRun(events)
    ensures var w := Run(events);
            && (forall h :: h in w.entries && OnPair(w.entries[h].plan, p) ==> GetsVerdict(w, h, p))
            && ((forall h :: h in w.entries ==> !OnPair(w.entries[h].plan, p)) ==> VerdictOf(w.chain, p) == None)
  {
    RunKeeps(events);
    var w := Run(events);
    forall h | h in w.entries && OnPair(w.entries[h].plan, p) ensures GetsVerdict(w, h, p) {
      PairGetsVerdict(w, h, p);
    }
    if forall h :: h in w.entries ==> !OnPair(w.entries[h].plan, p) {
      NobodysPacket(w, p);
    }
  }

  /** What is read back for an assignment, by verdict and direction, is what met the rules
      in place.  With the packets that slipped, and those whose rule and counter have been
      deleted, these are all its packets since it had no rules, overlapping destinations
      or not.  Where the whole block was always in place they are what the plan gives
      that verdict. */
  ghost predicate CountsAreTallies(w: World, h: string, d: Direction)
    requires h in w.entries
  {
    var e := w.entries[h];
    && (forall v, q :: CountersOf(w.chain, h, v, d, q) == EntryTally(e, v, d, q))
    && CountersOf(w.chain, h, Accept, d, Packets) + CountersOf(w.chain, h, Drop, d, Packets)
       + Slipped(e.plan, e.seen, d) + Vanished(e.plan, e.seen, e.from, d) == Crossings(e.plan, e.seen, d)
    && (AlwaysWhole(e) ==> forall v, q :: CountersOf(w.chain, h, v, d, q) == PolicyTally(e.plan, e.seen, v, d, q))
  }

  /** On every run. */
  lemma CountersAreTallies(events: seq<Event>, h: string, d: Direction)
    requires PossibleRun(events) && h in Run(events).entries
    ensures CountsAreTallies(Run(events), h, d)
  {
    RunKeeps(events);
    var w := Run(events);
    var e := w.entries[h];
    assert Found(w, h);
    assert forall i :: 0 <= i < |e.seen| ==> e.seen[i] in e.seen;
    forall v, q
      ensures CountersOf(w.chain, h, v, d, q) == EntryTally(e, v, d, q)
      ensures AlwaysWhole(e) ==> EntryTally(e, v, d, q) == PolicyTally(e.plan, e.seen, v, d, q)
    {
      CountersOfMine(w.chain, h, v, d, q);
      FoundTally(Mine(w.chain, h), h, e, v, d, q);
      if AlwaysWhole(e) {
        WholeCountsAll(e.plan, e.seen, v, d, q);
      }
    }
    TalliesCoverAll(e.plan, e.seen, e.from, e.until, d);
  }

  /** A commit or revoke of one assignment, at any of its steps, changes nothing of
      another: its rules with their counters, its totals, and every verdict on its pair. */
  lemma OthersUntouched(events: seq<Event>, e: Event, g: string, p: Packet, v: Verdict, d: Direction, q: Quantity)
    requires PossibleRun(events) && Possible(Run(events), e) && !e.Traffic? && g != e.handle
    requires g in Run(events).entries
    ensures Untouched(Run(events), Step(Run(events), e), g, p, v, d, q)
  {
    RunKeeps(events);
    StepKeeps(Run(events), e);
    MineOfOther(Run(events), e, g);
    SameMine(Run(events), Step(Run(events), e), g, p, v, d, q);
  }

  ghost predicate Untouched(w: World, w': World, g: string, p: Packet, v: Verdict, d: Direction, q: Quantity) {
    && g in w.entries && g in w'.entries && w'.entries[g] == w.entries[g]
    && Mine(w'.chain, g) == Mine(w.chain, g)
    && CountersOf(w'.chain, g, v, d, q) == CountersOf(w.chain, g, v, d, q)
    && (OnPair(w.entries[g].plan, p) ==> VerdictOf(w'.chain, p) == VerdictOf(w.chain, p))
  }

  lemma SameMine(w: World, w': World, g: string, p: Packet, v: Verdict, d: Direction, q: Quantity)
    requires Inv(w) && Inv(w') && g in w.entries && g in w'.entries && w'.entries[g] == w.entries[g]
    requires Mine(w'.chain, g) == Mine(w.chain, g)
    ensures Untouched(w, w', g, p, v, d, q)
  {
    CountersOfMine(w.chain, g, v, d, q);
    CountersOfMine(w'.chain, g, v, d, q);
    if OnPair(w.entries[g].plan, p) {
      PassedMine(w, g, p);
      PassedMine(w', g, p);
    }
  }

  lemma MineOfOther(w: World, e: Event, g: string)
    requires Inv(w) && !e.Traffic? && g != e.handle && g in w.entries
    ensures Mine(Step(w, e).chain, g) == Mine(w.chain, g)
    ensures g in Step(w, e).entries && Step(w, e).entries[g] == w.entries[g]
  {
    assert Found(w, g);
    if e.Add? {
      if MayAdd(w, e.handle) {
        NewIsOwned(w, e.handle);
        MineAfterAdd(w.chain, e.handle, NewRule(w, e.handle), g);
      }
    } else if e.Delete? {
      if MayDelete(w, e.handle) {
        assert Found(w, e.handle);
        OneDeletionIsExact(w.chain, g, e.handle);
      }
    }
  }

  // ---- The chain's own methods run these events ----

  function Deletions(w: World, h: string, n: nat): World {
    if n == 0 then w else Step(Deletions(w, h, n - 1), Delete(h))
  }

  function Additions(w: World, h: string, n: nat): World {
    if n == 0 then w else Step(Additions(w, h, n - 1), Add(h))
  }

  lemma {:induction false} DeletionsKeep(w: World, h: string, n: nat)
    requires Inv(w) && h in w.entries && n <= w.entries[h].until - w.entries[h].from
    ensures var w' := Deletions(w, h, n);
            && Inv(w') && w'.next == w.next && h in w'.entries && w'.entries[h] == w.entries[h].(from := w.entries[h].from + n)
            && Without(w'.chain, h) == Without(w.chain, h)
  {
    if n > 0 {
      DeletionsKeep(w, h, n - 1);
      var before := Deletions(w, h, n - 1);
      DeleteKeeps(before, h);
      SelectOtherDropped(before.chain, OwnedBy(h), NotOwnedBy(h));
    }
  }

  lemma {:induction false} NothingOwned(chain: seq<Installed>, h: string)
    requires Mine(chain, h) == []
    ensures Without(chain, h) == chain
  {
    if chain != [] {
      var n := |chain| - 1;
      NothingOwned(chain[..n], h);
      assert chain[..n] + [chain[n]] == chain;
    }
  }

  predicate InPlace(w: World, h: string, m: nat) { h in w.entries && w.entries[h].until == w.entries[h].from + m }

  /** Deleting the rules of a handle one by one, with no packet between, leaves the chain
      that `ForwardChain.DeleteNftRules` is proved to leave. */
  lemma DeletedByEvents(w: World, h: string, m: nat)
    requires Inv(w) && InPlace(w, h, m)
    ensures var w' := Deletions(w, h, m); w'.chain == Without(w.chain, h) && w'.next == w.next && MayBegin(w', h)
  {
    DeletionsKeep(w, h, m);
    NothingLeft(Deletions(w, h, m), h);
  }

  lemma NothingLeft(w: World, h: string)
    requires Inv(w) && h in w.entries && MayBegin(w, h)
    ensures Without(w.chain, h) == w.chain
  {
    assert Found(w, h);
    NoneLeft(w, h);
    NothingOwned(w.chain, h);
  }

  /** The chain is `base` and the first `n` rules of the block, numbered from `next`. */
  predicate Replaced(w: World, base: seq<Installed>, h: string, plan: Plan, n: nat, next: nat)
    requires n <= Size(plan)
  {
    && w.chain == base + Fresh(Block(h, plan)[..n], next) && w.next == next + n
    && h in w.entries && w.entries[h].plan == plan && w.entries[h].from == 0 && w.entries[h].until == n
  }

  lemma NextAddition(w: World, base: seq<Installed>, h: string, plan: Plan, n: nat, next: nat)
    requires n < Size(plan) && Replaced(w, base, h, plan, n, next)
    ensures Replaced(Step(w, Add(h)), base, h, plan, n + 1, next)
  {
    OneMore(base, Block(h, plan), n, next);
    assert NewRule(w, h) == Installed(next + n, Block(h, plan)[n], 0, 0);
  }

  lemma OneMore(base: seq<Installed>, block: seq<Rule>, n: nat, next: nat)
    requires n < |block|
    ensures base + Fresh(block[..n], next) + [Installed(next + n, block[n], 0, 0)] == base + Fresh(block[..n + 1], next)
  {
    FreshNext(block, n, next);
  }

  lemma {:induction false} AdditionsReplace(w: World, base: seq<Installed>, h: string, plan: Plan, n: nat, next: nat)
    requires n <= Size(plan) && Replaced(w, base, h, plan, 0, next)
    ensures Replaced(Additions(w, h, n), base, h, plan, n, next)
  {
    if n > 0 {
      AdditionsReplace(w, base, h, plan, n - 1, next);
      NextAddition(Additions(w, h, n - 1), base, h, plan, n - 1, next);
    }
  }

  /** All deletions, a beginning and `n` additions, with no packet between, leave the chain
      that `ForwardChain.ReplaceRules` is proved to leave. */
  lemma ReplacedByEvents(w: World, h: string, m: nat, plan: Plan, n: nat)
    requires Inv(w) && InPlace(w, h, m) && n <= Size(plan)
    ensures Replaced(Additions(Step(Deletions(w, h, m), Begin(h, plan)), h, n), Without(w.chain, h), h, plan, n, w.next)
  {
    DeletedByEvents(w, h, m);
    ReplacedFromNone(Deletions(w, h, m), Without(w.chain, h), h, plan, n, w.next);
  }

  lemma ReplacedFromNone(w: World, base: seq<Installed>, h: string, plan: Plan, n: nat, next: nat)
    requires MayBegin(w, h) && n <= Size(plan) && w.chain == base && w.next == next
    ensures Replaced(Additions(Step(w, Begin(h, plan)), h, n), base, h, plan, n, next)
  {
    assert Block(h, plan)[..0] == [];
    assert base + [] == base;
    AdditionsReplace(Step(w, Begin(h, plan)), base, h, plan, n, next);
  }
}
