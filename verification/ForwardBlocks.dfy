/** The rules one handle finds in the forward chain, while its block is added rule by rule
    and deleted rule by rule: which they are, what they do to a packet, and what their
    counters count. */
module ForwardBlocks {
  import opened Options
  import opened ForwardPolicy
  import opened SharedForwardChain
  import opened HitCounting

  /** Of the block of `plan` the rules `from` up to `until` are in place; `seen` are the
      packets on its pair since there were none. */
  datatype Entry = Entry(plan: Plan, from: nat, until: nat, seen: seq<Sighting>)

  /** A packet comes by and meets the first rule in place that it matches. */
  function Seen(e: Entry, p: Packet): Entry {
    e.(seen := e.seen + [Sighting(p, e.from, e.until, First(e.plan, e.from, e.until, p))])
  }

  function Verdicts(e: Entry, p: Packet): Option<Verdict> { Remainder(e.plan, e.from, e.until, p) }

  predicate Whole(e: Entry) { e.from == 0 && e.until == Size(e.plan) }

  /** The whole block is in place, and was for each packet seen. */
  predicate AlwaysWhole(e: Entry) {
    Whole(e) && forall i :: 0 <= i < |e.seen| ==> e.seen[i].from == 0 && e.seen[i].until == Size(e.plan)
  }

  /** The packets, or bytes, that met rules still in place of this verdict and direction. */
  function EntryTally(e: Entry, v: Verdict, d: Direction, q: Quantity): nat {
    Tally(e.seen, e.plan, v, d, e.from, e.until, q)
  }

  // ---- The rules found are those in place ----

  /** The rule met is the first that matches. */
  predicate Sighted(plan: Plan, s: Sighting) { OnPair(plan, s.packet) && s.met == First(plan, s.from, s.until, s.packet) }

  ghost predicate SightingsFit(e: Entry) {
    forall s :: s in e.seen ==> Sighted(e.plan, s) && s.from <= e.from && s.until <= e.until
  }

  predicate Shows(r: Installed, seen: seq<Sighting>, j: nat) { forall q: Quantity :: q.Of(r) == HitsAt(seen, j, q) }

  ghost predicate CountersFit(mine: seq<Installed>, e: Entry) {
    forall k :: 0 <= k < |mine| ==> Shows(mine[k], e.seen, e.from + k)
  }

  predicate EntryFits(h: string, e: Entry) {
    NoColon(h) && e.plan.inner != e.plan.outer && e.from <= e.until <= Size(e.plan)
  }

  ghost predicate MineFits(mine: seq<Installed>, h: string, e: Entry) {
    && EntryFits(h, e) && SightingsFit(e)
    && Rules(mine) == Block(h, e.plan)[e.from..e.until] && CountersFit(mine, e)
  }

  lemma FreshFits(h: string, plan: Plan)
    requires NoColon(h) && plan.inner != plan.outer
    ensures MineFits([], h, Entry(plan, 0, 0, []))
  {
  }

  lemma DroppedFits(mine: seq<Installed>, h: string, e: Entry)
    requires MineFits(mine, h, e) && e.from < e.until
    ensures mine != [] && MineFits(mine[1..], h, e.(from := e.from + 1))
  {
    assert |mine| == |Rules(mine)| == e.until - e.from;
    RulesTail(mine, Block(h, e.plan), e.from, e.until);
    CountersTail(mine, e);
  }

  lemma RulesTail(mine: seq<Installed>, block: seq<Rule>, from: nat, until: nat)
    requires from < until <= |block| && Rules(mine) == block[from..until] && mine != []
    ensures Rules(mine[1..]) == block[from + 1..until]
  {
    assert Rules(mine[1..]) == Rules(mine)[1..];
  }

  lemma CountersTail(mine: seq<Installed>, e: Entry)
    requires CountersFit(mine, e) && mine != []
    ensures CountersFit(mine[1..], e.(from := e.from + 1))
  {
    forall k | 0 <= k < |mine[1..]| ensures Shows(mine[1..][k], e.seen, e.from + 1 + k) {
      assert Shows(mine[k + 1], e.seen, e.from + (k + 1));
    }
  }

  lemma NotYetHit(plan: Plan, seen: seq<Sighting>, until: nat, q: Quantity)
    requires forall s :: s in seen ==> Sighted(plan, s) && s.until <= until
    ensures HitsAt(seen, until, q) == 0
  {
    forall i | 0 <= i < |seen| ensures seen[i].met != Some(until) {
      var s := seen[i];
      assert s in seen;
      FirstHits(plan, s.from, s.until, s.packet);
    }
    NeverHit(seen, until, q);
  }

  lemma AddedFits(mine: seq<Installed>, h: string, e: Entry, r: Installed)
    requires MineFits(mine, h, e) && e.from == 0 && e.until < Size(e.plan)
    requires r.rule == Block(h, e.plan)[e.until] && r.packets == 0 && r.bytes == 0
    ensures MineFits(mine + [r], h, e.(until := e.until + 1))
  {
    assert |mine| == |Rules(mine)| == e.until;
    RulesLonger(mine, r, Block(h, e.plan), e.until);
    forall q: Quantity ensures q.Of(r) == HitsAt(e.seen, e.until, q) {
      NotYetHit(e.plan, e.seen, e.until, q);
    }
    CountersLonger(mine, r, e);
  }

  lemma RulesLonger(mine: seq<Installed>, r: Installed, block: seq<Rule>, n: nat)
    requires n < |block| && Rules(mine) == block[0..n] && r.rule == block[n]
    ensures Rules(mine + [r]) == block[0..n + 1]
  {
    assert Rules(mine + [r]) == Rules(mine) + [r.rule];
    assert block[0..n + 1] == block[0..n] + [block[n]];
  }

  lemma CountersLonger(mine: seq<Installed>, r: Installed, e: Entry)
    requires CountersFit(mine, e) && |mine| == e.until && e.from == 0 && Shows(r, e.seen, e.until)
    ensures CountersFit(mine + [r], e.(until := e.until + 1))
  {
  }

  // ---- A packet ----

  /** What becomes of rules, of which the packet met `met` or none. */
  function Raised(mine: seq<Installed>, from: nat, met: Option<nat>, p: Packet): seq<Installed>
    requires met.Some? ==> from <= met.value < from + |mine|
  {
    if met.None? then mine else mine[met.value - from := Counted(mine[met.value - from], p)]
  }

  /** Of the rules `from` up to `until` of a block, rule `met` is the first that matches, or
      there is none. */
  lemma FirstOf(mine: seq<Installed>, block: seq<Rule>, from: nat, until: nat, met: Option<nat>, p: Packet)
    requires from <= until <= |block| && Rules(mine) == block[from..until]
    requires met.Some? ==> from <= met.value < until && Matches(block[met.value], p)
    requires forall j :: from <= j < until && (met.Some? ==> j < met.value) ==> !Matches(block[j], p)
    ensures |mine| == until - from && Passed(mine, p) == Raised(mine, from, met, p)
    ensures VerdictOf(mine, p) == if met.Some? then Some(block[met.value].verdict) else None
  {
    assert |mine| == |Rules(mine)|;
    forall j | 0 <= j < |mine| ensures mine[j].rule == block[from + j] {
      assert Rules(mine)[j] == mine[j].rule;
    }
    FirstHit(mine, (if met.Some? then met.value else until) - from, p);
  }

  /** A packet raises the counter of the rule it meets and gets its verdict. */
  lemma PassedAt(mine: seq<Installed>, h: string, e: Entry, p: Packet)
    requires EntryFits(h, e) && OnPair(e.plan, p) && Rules(mine) == Block(h, e.plan)[e.from..e.until]
    ensures var met := First(e.plan, e.from, e.until, p);
            && |mine| == e.until - e.from && (met.Some? ==> e.from <= met.value < e.until)
            && Passed(mine, p) == Raised(mine, e.from, met, p)
            && VerdictOf(mine, p) == if met.Some? then Some(Block(h, e.plan)[met.value].verdict) else None
  {
    FirstMatches(h, e.plan, e.from, e.until, p);
    FirstOf(mine, Block(h, e.plan), e.from, e.until, First(e.plan, e.from, e.until, p), p);
  }

  lemma {:induction false} PassedRules(chain: seq<Installed>, p: Packet)
    ensures Rules(Passed(chain, p)) == Rules(chain)
    decreases |chain|
  {
    if chain != [] && !Matches(chain[0].rule, p) {
      PassedRules(chain[1..], p);
      assert Rules(chain) == [chain[0].rule] + Rules(chain[1..]);
      assert Rules([chain[0]] + Passed(chain[1..], p)) == [chain[0].rule] + Rules(Passed(chain[1..], p));
    }
  }

  lemma SightedFits(mine: seq<Installed>, h: string, e: Entry, p: Packet)
    requires MineFits(mine, h, e) && OnPair(e.plan, p)
    ensures MineFits(Passed(mine, p), h, Seen(e, p))
  {
    PassedRules(mine, p);
    PassedAt(mine, h, e, p);
    SightedCounters(mine, Passed(mine, p), e, p);
  }

  lemma SightedCounters(mine: seq<Installed>, passed: seq<Installed>, e: Entry, p: Packet)
    requires CountersFit(mine, e) && |mine| == e.until - e.from
    requires var met := First(e.plan, e.from, e.until, p);
             (met.Some? ==> e.from <= met.value < e.until) && passed == Raised(mine, e.from, met, p)
    ensures CountersFit(passed, Seen(e, p))
  {
    var s := Sighting(p, e.from, e.until, First(e.plan, e.from, e.until, p));
    forall k | 0 <= k < |passed| ensures Shows(passed[k], e.seen + [s], e.from + k) {
      assert Shows(mine[k], e.seen, e.from + k);
      RaisedCounter(mine[k], e.seen, s, e.from + k);
    }
  }

  lemma RaisedCounter(r: Installed, seen: seq<Sighting>, s: Sighting, j: nat)
    requires Shows(r, seen, j)
    ensures Shows(if s.met == Some(j) then Counted(r, s.packet) else r, seen + [s], j)
  {
    forall q: Quantity ensures q.Of(if s.met == Some(j) then Counted(r, s.packet) else r) == HitsAt(seen + [s], j, q) {
      HitsNext(seen, s, j, q);
    }
  }

  /** What a packet meets of the rules found is what the rules in place say. */
  lemma FoundSay(mine: seq<Installed>, h: string, e: Entry, p: Packet)
    requires MineFits(mine, h, e) && OnPair(e.plan, p)
    ensures VerdictOf(mine, p) == Verdicts(e, p)
  {
    PassedAt(mine, h, e, p);
    var met := First(e.plan, e.from, e.until, p);
    if met.Some? {
      RuleSays(h, e.plan, met.value);
    }
  }

  // ---- Totals ----

  lemma HeadingOfComment(h: string, v: Verdict, d: Direction, v': Verdict, d': Direction)
    requires NoColon(h)
    ensures HeadedBy(h, v', d')(Comment(h, v, d)) <==> v == v' && d == d'
  {
    CommentReadsBack(h, v, d);
    assert h + ":" <= Comment(h, v, d);
    assert VerdictText(Accept)[0] != VerdictText(Drop)[0];
    assert DirectionText(ToDestination)[0] != DirectionText(FromDestination)[0];
  }

  /** A test picks the rules of one verdict and direction from the block. */
  ghost predicate Picks(test: Test, h: string, plan: Plan, v: Verdict, d: Direction) {
    forall j: nat :: j < Size(plan) ==> (test(Block(h, plan)[j].comment) <==> Says(plan, j) == (v, d))
  }

  lemma HeadingPicks(h: string, plan: Plan, v: Verdict, d: Direction)
    requires NoColon(h)
    ensures Picks(HeadedBy(h, v, d), h, plan, v, d)
  {
    forall j: nat | j < Size(plan) ensures HeadedBy(h, v, d)(Block(h, plan)[j].comment) <==> Says(plan, j) == (v, d) {
      RuleSays(h, plan, j);
      HeadingOfComment(h, Says(plan, j).0, Says(plan, j).1, v, d);
    }
  }

  /** What is read back is the tally of the rules in place. */
  lemma FoundTally(mine: seq<Installed>, h: string, e: Entry, v: Verdict, d: Direction, q: Quantity)
    requires MineFits(mine, h, e)
    ensures CountersOf(mine, h, v, d, q) == EntryTally(e, v, d, q)
  {
    HeadingPicks(h, e.plan, v, d);
    PickedTally(mine, h, e, HeadedBy(h, v, d), v, d, q);
  }

  lemma PickedTally(mine: seq<Installed>, h: string, e: Entry, test: Test, v: Verdict, d: Direction, q: Quantity)
    requires MineFits(mine, h, e) && Picks(test, h, e.plan, v, d)
    ensures Total(mine, test, q) == EntryTally(e, v, d, q)
  {
    FoundRead(mine, h, e, test, v, d);
    TotalIsTally(mine, test, e.seen, e.plan, v, d, e.from, q);
  }

  lemma FoundRead(mine: seq<Installed>, h: string, e: Entry, test: Test, v: Verdict, d: Direction)
    requires MineFits(mine, h, e) && Picks(test, h, e.plan, v, d)
    ensures |mine| == e.until - e.from
    ensures forall k :: 0 <= k < |mine| ==> Reads(mine[k], test, e.seen, e.plan, v, d, e.from + k)
  {
    assert |mine| == |Rules(mine)|;
    forall k | 0 <= k < |mine| ensures Reads(mine[k], test, e.seen, e.plan, v, d, e.from + k) {
      assert mine[k].rule == Rules(mine)[k] == Block(h, e.plan)[e.from + k];
    }
  }

  /** Rule `j` of the block, as it is found: its counter, and whether the test picks it. */
  predicate Reads(r: Installed, test: Test, seen: seq<Sighting>, plan: Plan, v: Verdict, d: Direction, j: nat) {
    Shows(r, seen, j) && (test(r.rule.comment) <==> Says(plan, j) == (v, d))
  }

  lemma {:induction false} TotalIsTally(mine: seq<Installed>, test: Test, seen: seq<Sighting>, plan: Plan, v: Verdict, d: Direction,
                                        from: nat, q: Quantity)
    requires forall k :: 0 <= k < |mine| ==> Reads(mine[k], test, seen, plan, v, d, from + k)
    ensures Total(mine, test, q) == Tally(seen, plan, v, d, from, from + |mine|, q)
    decreases |mine|
  {
    if mine == [] {
      TallyOfNone(seen, plan, v, d, from, from, q);
    } else {
      assert Reads(mine[0], test, seen, plan, v, d, from + 0);
      forall k | 0 <= k < |mine[1..]| ensures Reads(mine[1..][k], test, seen, plan, v, d, from + 1 + k) {
        assert Reads(mine[k + 1], test, seen, plan, v, d, from + (k + 1));
      }
      TotalIsTally(mine[1..], test, seen, plan, v, d, from + 1, q);
      FirstTally(mine, test, seen, plan, v, d, from, from + |mine|, q);
    }
  }

  lemma FirstTally(mine: seq<Installed>, test: Test, seen: seq<Sighting>, plan: Plan, v: Verdict, d: Direction,
                   from: nat, until: nat, q: Quantity)
    requires mine != [] && from < until && Reads(mine[0], test, seen, plan, v, d, from)
    requires Total(mine[1..], test, q) == Tally(seen, plan, v, d, from + 1, until, q)
    ensures Total(mine, test, q) == Tally(seen, plan, v, d, from, until, q)
  {
    assert [mine[0]] + mine[1..] == mine;
    TotalOne(mine[0], mine[1..], test, q);
    TallySplits(seen, plan, v, d, from, until, q);
  }

  // ---- Every packet is accounted for ----

  /** The packets of one direction. */
  function Crossings(plan: Plan, seen: seq<Sighting>, d: Direction): nat {
    if seen == [] then 0
    else
      var s := seen[|seen| - 1];
      Crossings(plan, seen[..|seen| - 1], d) + if DirectionOf(plan, s.packet) == d then 1 else 0
  }

  /** Those of them that met no rule. */
  function Slipped(plan: Plan, seen: seq<Sighting>, d: Direction): nat {
    if seen == [] then 0
    else
      var s := seen[|seen| - 1];
      Slipped(plan, seen[..|seen| - 1], d) + if DirectionOf(plan, s.packet) == d && s.met.None? then 1 else 0
  }

  /** Those whose rule has been deleted, and its counter with it. */
  function Vanished(plan: Plan, seen: seq<Sighting>, from: nat, d: Direction): nat {
    if seen == [] then 0
    else
      var s := seen[|seen| - 1];
      Vanished(plan, seen[..|seen| - 1], from, d)
      + if DirectionOf(plan, s.packet) == d && s.met.Some? && s.met.value < from then 1 else 0
  }

  /** The rule met was there and is of the packet's direction. */
  lemma MetSays(plan: Plan, s: Sighting)
    requires Sighted(plan, s) && s.met.Some?
    ensures s.from <= s.met.value < s.until && Says(plan, s.met.value).1 == DirectionOf(plan, s.packet)
  {
    FirstHits(plan, s.from, s.until, s.packet);
  }

  lemma {:induction false} TalliesCoverAll(plan: Plan, seen: seq<Sighting>, from: nat, until: nat, d: Direction)
    requires forall i :: 0 <= i < |seen| ==> Sighted(plan, seen[i]) && seen[i].until <= until
    ensures Tally(seen, plan, Accept, d, from, until, Packets) + Tally(seen, plan, Drop, d, from, until, Packets)
            + Slipped(plan, seen, d) + Vanished(plan, seen, from, d) == Crossings(plan, seen, d)
  {
    if seen != [] {
      var n := |seen| - 1;
      TalliesCoverAll(plan, seen[..n], from, until, d);
      if seen[n].met.Some? {
        MetSays(plan, seen[n]);
      }
    }
  }

  /** While the whole block is in place and was when each packet came, none has slipped or
      vanished, so that forwarded and dropped are all, and each packet is counted under
      the policy's verdict. */
  lemma {:induction false} WholeCountsAll(plan: Plan, seen: seq<Sighting>, v: Verdict, d: Direction, q: Quantity)
    requires forall i :: 0 <= i < |seen| ==> Sighted(plan, seen[i]) && seen[i].from == 0 && seen[i].until == Size(plan)
    ensures Slipped(plan, seen, d) == 0 && Vanished(plan, seen, 0, d) == 0
    ensures Tally(seen, plan, v, d, 0, Size(plan), q) == PolicyTally(plan, seen, v, d, q)
  {
    if seen != [] {
      var n := |seen| - 1;
      WholeCountsAll(plan, seen[..n], v, d, q);
      WholeHit(plan, seen[n], v, d);
    }
  }

  /** The policy's verdict on a packet of this direction. */
  predicate Ruled(plan: Plan, p: Packet, v: Verdict, d: Direction) {
    OnPair(plan, p) && Policy(plan, p) == v && DirectionOf(plan, p) == d
  }

  lemma WholeHit(plan: Plan, s: Sighting, v: Verdict, d: Direction)
    requires Sighted(plan, s) && s.from == 0 && s.until == Size(plan)
    ensures s.met.Some? && (Under(s, plan, v, d, 0, Size(plan)) <==> Ruled(plan, s.packet, v, d))
  {
    RemainderAgainstPolicy(plan, 0, Size(plan), s.packet);
    MetSays(plan, s);
  }

  /** The packets, or bytes, of one direction that the policy gives one verdict. */
  function PolicyTally(plan: Plan, seen: seq<Sighting>, v: Verdict, d: Direction, q: Quantity): nat {
    if seen == [] then 0
    else
      var n := |seen| - 1;
      PolicyTally(plan, seen[..n], v, d, q) + if Ruled(plan, seen[n].packet, v, d) then q.Each(seen[n].packet.size) else 0
  }
}
