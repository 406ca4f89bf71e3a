/** The forward chain shared by all assignments of a gate: deletion by comment, commits
    that delete and append, traffic that raises counters, and the totals read back. */
module SharedForwardChain {
  import opened Options
  import opened ForwardPolicy

  // ---- The specification of the chain operations ----

  /** A test on the comments of rules. */
  type Test = string -> bool

  function OwnedBy(handle: string): Test { comment => Owned(comment, handle) }

  function NotOwnedBy(handle: string): Test { comment => !Owned(comment, handle) }

  /** The rules a test selects, in order, counters included. */
  function Select(chain: seq<Installed>, test: Test): seq<Installed> {
    if chain == [] then []
    else
      var n := |chain| - 1;
      if test(chain[n].rule.comment) then Select(chain[..n], test) + [chain[n]] else Select(chain[..n], test)
  }

  /** The rules found by a handle, and the others. */
  function Mine(chain: seq<Installed>, handle: string): seq<Installed> { Select(chain, OwnedBy(handle)) }

  function Without(chain: seq<Installed>, handle: string): seq<Installed> { Select(chain, NotOwnedBy(handle)) }

  /** Freshly added rules: consecutive numbers, counters at zero. */
  function Fresh(rules: seq<Rule>, number: nat): (r: seq<Installed>)
    ensures |r| == |rules|
    ensures forall i :: 0 <= i < |r| ==> r[i] == Installed(number + i, rules[i], 0, 0)
  {
    seq(|rules|, i requires 0 <= i < |rules| => Installed(number + i, rules[i], 0, 0))
  }

  function Counted(r: Installed, p: Packet): Installed { r.(packets := r.packets + 1, bytes := r.bytes + p.size) }

  /** A packet raises the counter of the first rule it matches, and no other. */
  function Passed(chain: seq<Installed>, p: Packet): seq<Installed> {
    if chain == [] then []
    else if Matches(chain[0].rule, p) then [Counted(chain[0], p)] + chain[1..]
    else [chain[0]] + Passed(chain[1..], p)
  }

  function Rules(chain: seq<Installed>): (r: seq<Rule>)
    ensures |r| == |chain| && forall i :: 0 <= i < |r| ==> r[i] == chain[i].rule
  {
    seq(|chain|, i requires 0 <= i < |chain| => chain[i].rule)
  }

  /** The counters of the rules a test selects, added up. */
  function Total(chain: seq<Installed>, test: Test, q: Quantity): nat {
    if chain == [] then 0
    else
      var n := |chain| - 1;
      Total(chain[..n], test, q) + if test(chain[n].rule.comment) then q.Of(chain[n]) else 0
  }

  /** The rules whose comments the counter parser puts under one heading. */
  function HeadedBy(handle: string, v: Verdict, d: Direction): Test {
    comment =>
      handle + ":" <= comment && ParsedVerdict(comment) == VerdictText(v) && ParsedDirection(comment) == DirectionText(d)
  }

  /** What the agent reads back for an assignment. */
  function CountersOf(chain: seq<Installed>, handle: string, v: Verdict, d: Direction, q: Quantity): nat {
    Total(chain, HeadedBy(handle, v, d), q)
  }

  // ---- The kernel chain as the agent drives it ----

  class ForwardChain {
    var rules: seq<Installed>
    var next: nat

    ghost predicate Valid()
      reads this
    {
      && (forall i :: 0 <= i < |rules| ==> rules[i].number < next)
      && (forall i, j :: 0 <= i < j < |rules| ==> rules[i].number < rules[j].number)
    }

    constructor ()
      ensures Valid() && rules == [] && next == 0
    {
      rules, next := [], 0;
    }

    /** `nft delete rule ... handle number`; `at` is where the rule is. */
    method DeleteRule(number: nat, ghost at: nat)
      requires Valid() && at < |rules| && rules[at].number == number
      modifies this`rules
      ensures Valid() && rules == old(rules)[..at] + old(rules)[at + 1..]
    {
      var i := 0;
      while rules[i].number != number
        invariant 0 <= i <= at && rules == old(rules)
      {
        i := i + 1;
      }
      rules := rules[..i] + rules[i + 1..];
    }

    /** Lists the chain and deletes, by number, each rule whose comment is the handle's. */
    method DeleteNftRules(handle: string)
      requires Valid() && handle != ""
      modifies this`rules
      ensures Valid()
      ensures rules == Without(old(rules), handle)
    {
      var listing := rules;
      for i := 0 to |listing|
        invariant Valid()
        invariant rules == Without(listing[..i], handle) + listing[i..]
      {
        ghost var kept := Without(listing[..i], handle);
        WithoutNext(listing, i, handle);
        SkipOne(kept, listing[i..]);
        if Owned(listing[i].rule.comment, handle) {
          DeleteRule(listing[i].number, |kept|);
        }
      }
      assert listing[..|listing|] == listing;
    }

    method AddRule(rule: Rule)
      requires Valid()
      modifies this
      ensures Valid() && rules == old(rules) + [Installed(old(next), rule, 0, 0)] && next == old(next) + 1
    {
      rules := rules + [Installed(next, rule, 0, 0)];
      next := next + 1;
    }

    /** The part of a commit that concerns the chain; adding stops after `added` rules
        when a command fails. */
    method ReplaceRules(handle: string, block: seq<Rule>, added: nat)
      requires Valid() && handle != "" && added <= |block|
      modifies this
      ensures Valid() && next == old(next) + added
      ensures rules == Without(old(rules), handle) + Fresh(block[..added], old(next))
    {
      DeleteNftRules(handle);
      ghost var base := rules;
      for i := 0 to added
        invariant Valid() && next == old(next) + i
        invariant rules == base + Fresh(block[..i], old(next))
      {
        AddRule(block[i]);
        FreshNext(block, i, old(next));
      }
    }

    /** The kernel handling one forwarded packet. */
    method Forward(p: Packet) returns (verdict: Option<Verdict>)
      requires Valid()
      modifies this`rules
      ensures Valid() && rules == Passed(old(rules), p)
      ensures verdict == VerdictOf(old(rules), p)
    {
      var i := 0;
      while i < |rules| && !Matches(rules[i].rule, p)
        invariant 0 <= i <= |rules| && forall j :: 0 <= j < i ==> !Matches(rules[j].rule, p)
      {
        i := i + 1;
      }
      FirstHit(rules, i, p);
      if i == |rules| {
        return None;
      }
      verdict := Some(rules[i].rule.verdict);
      rules := rules[i := Counted(rules[i], p)];
    }
  }

  /** Rule `i` is the first that matches, or there is none. */
  lemma {:induction false} FirstHit(chain: seq<Installed>, i: nat, p: Packet)
    requires i <= |chain| && (forall j :: 0 <= j < i ==> !Matches(chain[j].rule, p))
    requires i < |chain| ==> Matches(chain[i].rule, p)
    ensures Passed(chain, p) == if i < |chain| then chain[i := Counted(chain[i], p)] else chain
    ensures VerdictOf(chain, p) == if i < |chain| then Some(chain[i].rule.verdict) else None
    decreases i
  {
    if chain != [] {
      var r, rest := chain[0], chain[1..];
      assert chain == [r] + rest;
      HeadAndTail(r, rest, p);
      if i > 0 {
        FirstHit(rest, i - 1, p);
      }
    }
  }

  lemma WithoutNext(chain: seq<Installed>, i: nat, handle: string)
    requires i < |chain|
    ensures Without(chain[..i + 1], handle) ==
            Without(chain[..i], handle) + if OwnedBy(handle)(chain[i].rule.comment) then [] else [chain[i]]
  {
    assert chain[..i + 1][..i] == chain[..i];
  }

  lemma SkipOne<T>(kept: seq<T>, rest: seq<T>)
    requires rest != []
    ensures (kept + rest)[|kept|] == rest[0]
    ensures (kept + rest)[..|kept|] + (kept + rest)[|kept| + 1..] == kept + rest[1..]
    ensures kept + [rest[0]] + rest[1..] == kept + rest
  {
  }

  lemma FreshNext(rules: seq<Rule>, i: nat, number: nat)
    requires i < |rules|
    ensures Fresh(rules[..i + 1], number) == Fresh(rules[..i], number) + [Installed(number + i, rules[i], 0, 0)]
  {
  }

  function VerdictOf(chain: seq<Installed>, p: Packet): Option<Verdict> {
    var m := FirstMatch(Rules(chain), p);
    if m.Some? then Some(m.value.verdict) else None
  }

  // ---- Selecting ----

  lemma {:induction false} SelectAppend(a: seq<Installed>, b: seq<Installed>, test: Test)
    ensures Select(a + b, test) == Select(a, test) + Select(b, test)
  {
    if b == [] {
      assert a + b == a;
    } else {
      var n := |b| - 1;
      assert (a + b)[..|a| + n] == a + b[..n];
      SelectAppend(a, b[..n], test);
    }
  }

  lemma SelectOne(r: Installed, rest: seq<Installed>, test: Test)
    ensures Select([r] + rest, test) == if test(r.rule.comment) then [r] + Select(rest, test) else Select(rest, test)
  {
    SelectAppend([r], rest, test);
    assert [r][..0] == [];
    assert Select([r], test) == if test(r.rule.comment) then [] + [r] else [];
    assert [] + Select(rest, test) == Select(rest, test);
  }

  lemma {:induction false} SelectTwice(chain: seq<Installed>, outer: Test, inner: Test)
    requires forall c :: inner(c) ==> outer(c)
    ensures Select(Select(chain, outer), inner) == Select(chain, inner)
  {
    if chain != [] {
      var n := |chain| - 1;
      SelectTwice(chain[..n], outer, inner);
      var kept := Select(chain[..n], outer);
      assert (kept + [chain[n]])[..|kept|] == kept;
    }
  }

  lemma {:induction false} SelectNone(chain: seq<Installed>, test: Test)
    requires forall i :: 0 <= i < |chain| ==> !test(chain[i].rule.comment)
    ensures Select(chain, test) == []
  {
    if chain != [] {
      SelectNone(chain[..|chain| - 1], test);
    }
  }

  lemma {:induction false} SelectSubset(chain: seq<Installed>, test: Test)
    ensures forall i :: 0 <= i < |Select(chain, test)| ==>
              Select(chain, test)[i] in chain && test(Select(chain, test)[i].rule.comment)
  {
    if chain != [] {
      SelectSubset(chain[..|chain| - 1], test);
    }
  }

  /** Deleting by one handle removes all of its rules and none of another's. */
  lemma DeletionIsExact(chain: seq<Installed>, g: string, h: string)
    requires NoColon(g) && NoColon(h)
    ensures Mine(Without(chain, h), g) == if g == h then [] else Mine(chain, g)
  {
    if g == h {
      SelectSubset(chain, NotOwnedBy(h));
      SelectNone(Without(chain, h), OwnedBy(g));
    } else {
      forall c | OwnedBy(g)(c) ensures NotOwnedBy(h)(c) {
        if Owned(c, h) {
          OwnedUnique(c, g, h);
        }
      }
      SelectTwice(chain, NotOwnedBy(h), OwnedBy(g));
    }
  }

  // ---- Deleting one rule after the other ----

  /** The chain without the first rule a test selects. */
  function DropFirst(chain: seq<Installed>, test: Test): seq<Installed> {
    if chain == [] then [] else if test(chain[0].rule.comment) then chain[1..] else [chain[0]] + DropFirst(chain[1..], test)
  }

  lemma {:induction false} SelectDropped(chain: seq<Installed>, test: Test)
    ensures Select(DropFirst(chain, test), test) == if Select(chain, test) == [] then [] else Select(chain, test)[1..]
    decreases |chain|
  {
    if chain != [] {
      var r, rest := chain[0], chain[1..];
      assert chain == [r] + rest;
      SelectOne(r, rest, test);
      if !test(r.rule.comment) {
        SelectDropped(rest, test);
        SelectOne(r, DropFirst(rest, test), test);
      }
    }
  }

  lemma {:induction false} SelectOtherDropped(chain: seq<Installed>, test: Test, other: Test)
    requires forall c :: !(test(c) && other(c))
    ensures Select(DropFirst(chain, test), other) == Select(chain, other)
    decreases |chain|
  {
    if chain != [] {
      var r, rest := chain[0], chain[1..];
      assert chain == [r] + rest;
      SelectOne(r, rest, other);
      if !test(r.rule.comment) {
        SelectOtherDropped(rest, test, other);
        SelectOne(r, DropFirst(rest, test), other);
      }
    }
  }

  lemma {:induction false} DropFirstSubset(chain: seq<Installed>, test: Test)
    ensures forall r :: r in DropFirst(chain, test) ==> r in chain
    decreases |chain|
  {
    if chain != [] && !test(chain[0].rule.comment) {
      DropFirstSubset(chain[1..], test);
    }
  }

  /** Deleting one rule of a handle takes the first of its rules and none of another's. */
  lemma OneDeletionIsExact(chain: seq<Installed>, g: string, h: string)
    requires NoColon(g) && NoColon(h)
    ensures Mine(DropFirst(chain, OwnedBy(h)), g) ==
            if g != h then Mine(chain, g) else if Mine(chain, h) == [] then [] else Mine(chain, h)[1..]
  {
    if g == h {
      SelectDropped(chain, OwnedBy(h));
    } else {
      forall c ensures !(OwnedBy(h)(c) && OwnedBy(g)(c)) {
        if Owned(c, h) && Owned(c, g) {
          OwnedUnique(c, g, h);
        }
      }
      SelectOtherDropped(chain, OwnedBy(h), OwnedBy(g));
    }
  }

  predicate BlockOf(rules: seq<Rule>, handle: string) {
    forall i :: 0 <= i < |rules| ==> NamedBy(rules[i].comment, handle)
  }

  predicate NamedBy(comment: string, handle: string) {
    exists v, d :: comment == Comment(handle, v, d)
  }

  lemma NamesOwner(comment: string, g: string, h: string)
    requires NoColon(g) && NoColon(h) && NamedBy(comment, h)
    ensures OwnedBy(g)(comment) <==> g == h
  {
    var v, d :| comment == Comment(h, v, d);
    CommentNamesOwner(h, g, v, d);
  }

  lemma {:induction false} AcceptRulesAreBlock(handle: string, plan: Plan, cidrs: seq<Cidr>)
    ensures BlockOf(AcceptRules(handle, plan, cidrs), handle)
    ensures forall r :: r in AcceptRules(handle, plan, cidrs) ==> RuleOn(plan, r)
  {
    if cidrs != [] {
      AcceptRulesAreBlock(handle, plan, cidrs[..|cidrs| - 1]);
      var rules := CidrRules(handle, plan, cidrs[|cidrs| - 1]);
      assert rules[0].comment == Comment(handle, Accept, ToDestination);
      assert rules[1].comment == Comment(handle, Accept, FromDestination);
    }
  }

  predicate RuleOn(plan: Plan, r: Rule) {
    (r.iif == plan.inner && r.oif == plan.outer) || (r.iif == plan.outer && r.oif == plan.inner)
  }

  /** Every compiled rule carries the handle and lies on the plan's interface pair. */
  lemma BlockIsOwned(handle: string, plan: Plan)
    ensures BlockOf(Block(handle, plan), handle)
    ensures forall r :: r in Block(handle, plan) ==> RuleOn(plan, r)
  {
    AcceptRulesAreBlock(handle, plan, plan.cidrs);
    var rules := DropRules(handle, plan);
    assert rules[0].comment == Comment(handle, Drop, ToDestination);
    assert rules[1].comment == Comment(handle, Drop, FromDestination);
  }

  // ---- A packet and a selection ----

  lemma HeadAndTail(r: Installed, rest: seq<Installed>, p: Packet)
    ensures FirstMatch(Rules([r] + rest), p) == if Matches(r.rule, p) then Some(r.rule) else FirstMatch(Rules(rest), p)
    ensures Passed([r] + rest, p) == if Matches(r.rule, p) then [Counted(r, p)] + rest else [r] + Passed(rest, p)
  {
    assert Rules([r] + rest)[1..] == Rules(rest) && ([r] + rest)[1..] == rest;
  }

  /** When a test selects every rule a packet matches, the selected rules alone decide
      its verdict and are counted as they would be alone. */
  lemma {:induction false} SelectionDecides(chain: seq<Installed>, p: Packet, test: Test)
    requires forall i :: 0 <= i < |chain| && Matches(chain[i].rule, p) ==> test(chain[i].rule.comment)
    ensures FirstMatch(Rules(chain), p) == FirstMatch(Rules(Select(chain, test)), p)
    ensures Select(Passed(chain, p), test) == Passed(Select(chain, test), p)
    decreases |chain|
  {
    if chain != [] {
      var r, rest := chain[0], chain[1..];
      assert chain == [r] + rest;
      SelectionDecides(rest, p, test);
      HeadAndTail(r, rest, p);
      HeadAndTail(r, Select(rest, test), p);
      SelectOne(r, rest, test);
      SelectOne(Counted(r, p), rest, test);
      SelectOne(r, Passed(rest, p), test);
    }
  }

  /** When a test selects no rule a packet matches, the selected rules do not change. */
  lemma {:induction false} SelectionSpared(chain: seq<Installed>, p: Packet, test: Test)
    requires forall i :: 0 <= i < |chain| && Matches(chain[i].rule, p) ==> !test(chain[i].rule.comment)
    ensures Select(Passed(chain, p), test) == Select(chain, test)
    decreases |chain|
  {
    if chain != [] {
      var r, rest := chain[0], chain[1..];
      assert chain == [r] + rest;
      SelectionSpared(rest, p, test);
      HeadAndTail(r, rest, p);
      SelectOne(r, rest, test);
      SelectOne(Counted(r, p), rest, test);
      SelectOne(r, Passed(rest, p), test);
    }
  }

  // ---- Totals ----

  lemma {:induction false} TotalAppend(a: seq<Installed>, b: seq<Installed>, test: Test, q: Quantity)
    ensures Total(a + b, test, q) == Total(a, test, q) + Total(b, test, q)
  {
    if b == [] {
      assert a + b == a;
    } else {
      var n := |b| - 1;
      assert (a + b)[..|a| + n] == a + b[..n];
      TotalAppend(a, b[..n], test, q);
    }
  }

  lemma TotalOne(r: Installed, rest: seq<Installed>, test: Test, q: Quantity)
    ensures Total([r] + rest, test, q) == (if test(r.rule.comment) then q.Of(r) else 0) + Total(rest, test, q)
  {
    TotalAppend([r], rest, test, q);
    assert [r][..0] == [];
  }

  /** Totals of a narrow test can be read off a wider selection. */
  lemma {:induction false} TotalOfSelect(chain: seq<Installed>, outer: Test, inner: Test, q: Quantity)
    requires forall c :: inner(c) ==> outer(c)
    ensures Total(Select(chain, outer), inner, q) == Total(chain, inner, q)
  {
    if chain != [] {
      var n := |chain| - 1;
      TotalOfSelect(chain[..n], outer, inner, q);
      var kept := Select(chain[..n], outer);
      assert (kept + [chain[n]])[..|kept|] == kept;
    }
  }

  function Share(m: Option<Rule>, p: Packet, test: Test, q: Quantity): nat {
    if m.Some? && test(m.value.comment) then q.Each(p.size) else 0
  }

  /** A packet adds itself to the totals once: to those of the rule it met. */
  lemma {:induction false} PassedTotals(chain: seq<Installed>, p: Packet, test: Test, q: Quantity)
    ensures Total(Passed(chain, p), test, q) == Total(chain, test, q) + Share(FirstMatch(Rules(chain), p), p, test, q)
    decreases |chain|
  {
    if chain != [] {
      var r, rest := chain[0], chain[1..];
      PassedTotals(rest, p, test, q);
      assert chain == [r] + rest;
      HeadAndTail(r, rest, p);
      TotalOne(r, rest, test, q);
      TotalOne(r, Passed(rest, p), test, q);
      TotalOne(Counted(r, p), rest, test, q);
    }
  }
}
