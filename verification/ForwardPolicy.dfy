/** The packet policy of the gate agent: the rule lists it compiles for an assignment,
    the shared forward chain they are appended to and deleted from by comment, and the
    counters it reads back.  The chain is evaluated first match first; a packet no rule
    matches falls to the chain policy. */
module ForwardPolicy {
  import opened Options

  // ---- Addresses, rules, packets ----

  function Power2(n: nat): (r: nat)
    ensures r > 0
  {
    if n == 0 then 1 else 2 * Power2(n - 1)
  }

  /** A block of addresses: those agreeing with `base` above the host bits. */
  datatype Cidr = Cidr(base: nat, hostBits: nat) {
    predicate Contains(address: nat) { address / Power2(hostBits) == base / Power2(hostBits) }
  }

  datatype Verdict = Accept | Drop

  datatype Direction = ToDestination | FromDestination

  /** `tracked` asks for connection state established or related. */
  datatype Rule = Rule(
    iif: string, oif: string, tracked: bool, source: Option<Cidr>, destination: Option<Cidr>,
    verdict: Verdict, comment: string)

  datatype Packet = Packet(iif: string, oif: string, established: bool, source: nat, destination: nat, size: nat)

  /** A rule in the kernel: its number and its counter. */
  datatype Installed = Installed(number: nat, rule: Rule, packets: nat, bytes: nat)

  /** What a counter counts: of a rule, and of a packet of some size. */
  datatype Quantity = Packets | Bytes {
    function Of(r: Installed): nat { if Packets? then r.packets else r.bytes }

    function Each(size: nat): nat { if Packets? then 1 else size }
  }

  /** What the plan asks: `inner` faces the client, `outer` the destinations. */
  datatype Plan = Plan(inner: string, outer: string, client: Cidr, cidrs: seq<Cidr>)

  predicate Matches(r: Rule, p: Packet) {
    && r.iif == p.iif && r.oif == p.oif && (r.tracked ==> p.established)
    && (r.source.Some? ==> r.source.value.Contains(p.source))
    && (r.destination.Some? ==> r.destination.value.Contains(p.destination))
  }

  // ---- Comments carry ownership ----

  function VerdictText(v: Verdict): string { if v.Accept? then "accept" else "drop" }

  function DirectionText(d: Direction): string { if d.ToDestination? then "to_destination" else "from_destination" }

  function Comment(handle: string, v: Verdict, d: Direction): string {
    handle + ":" + VerdictText(v) + ":" + DirectionText(d)
  }

  predicate NoColon(s: string) { ':' !in s }

  /** The test by which rules are found for deletion and for counting. */
  predicate Owned(comment: string, handle: string) {
    comment == handle || handle + ":" <= comment
  }

  /** The comment up to its first separator. */
  function Head(comment: string): string {
    if comment == "" || comment[0] == ':' then "" else [comment[0]] + Head(comment[1..])
  }

  lemma {:induction false} OwnedIsHead(comment: string, handle: string)
    requires NoColon(handle)
    ensures Owned(comment, handle) <==> Head(comment) == handle
  {
    if handle == "" {
      assert handle + ":" == ":";
    } else {
      assert handle[0] in handle && handle == [handle[0]] + handle[1..];
      assert handle + ":" == [handle[0]] + (handle[1..] + ":");
      if comment != "" {
        OwnedIsHead(comment[1..], handle[1..]);
        assert comment == [comment[0]] + comment[1..];
        assert Owned(comment, handle) <==> comment[0] == handle[0] && Owned(comment[1..], handle[1..]);
      }
    }
  }

  lemma OwnedUnique(comment: string, g: string, h: string)
    requires NoColon(g) && NoColon(h) && Owned(comment, g) && Owned(comment, h)
    ensures g == h
  {
    OwnedIsHead(comment, g);
    OwnedIsHead(comment, h);
  }

  /** An assignment's rules are found by its own handle and by no other. */
  lemma CommentNamesOwner(g: string, h: string, v: Verdict, d: Direction)
    requires NoColon(g) && NoColon(h)
    ensures Owned(Comment(g, v, d), h) <==> g == h
  {
    assert g + ":" <= Comment(g, v, d);
    if Owned(Comment(g, v, d), h) {
      OwnedUnique(Comment(g, v, d), g, h);
    }
  }

  /** The text between separators. */
  function Split(s: string): (parts: seq<string>)
    ensures parts != []
  {
    if s == "" then [""]
    else
      var rest := Split(s[1..]);
      if s[0] == ':' then [""] + rest else [[s[0]] + rest[0]] + rest[1..]
  }

  lemma {:induction false} SplitPart(part: string, rest: string)
    requires NoColon(part)
    ensures Split(part + ":" + rest) == [part] + Split(rest)
    ensures Split(part) == [part]
  {
    if part == "" {
      assert part + ":" + rest == ":" + rest;
      assert (":" + rest)[1..] == rest;
    } else {
      var whole := part + ":" + rest;
      assert part[0] in part;
      assert whole[0] == part[0] && whole[1..] == part[1..] + ":" + rest;
      SplitPart(part[1..], rest);
      assert [part[0]] + part[1..] == part;
      assert Split(whole) == [[part[0]] + Split(whole[1..])[0]] + Split(whole[1..])[1..];
      assert Split(part) == [[part[0]] + Split(part[1..])[0]] + Split(part[1..])[1..];
    }
  }

  /** What the counter parser takes a comment to say: its last two parts. */
  function ParsedVerdict(comment: string): string {
    var parts := Split(comment); if |parts| < 3 then "" else parts[|parts| - 2]
  }

  function ParsedDirection(comment: string): string {
    var parts := Split(comment); if |parts| < 3 then "" else parts[|parts| - 1]
  }

  /** Counters are read back under the verdict and direction they were written with. */
  lemma CommentReadsBack(handle: string, v: Verdict, d: Direction)
    requires NoColon(handle)
    ensures ParsedVerdict(Comment(handle, v, d)) == VerdictText(v)
    ensures ParsedDirection(Comment(handle, v, d)) == DirectionText(d)
  {
    var vt, dt := VerdictText(v), DirectionText(d);
    TextsHaveNoColon(v, d);
    SplitThree(handle, vt, dt);
    assert Comment(handle, v, d) == handle + ":" + (vt + ":" + dt);
  }

  lemma TextsHaveNoColon(v: Verdict, d: Direction)
    ensures NoColon(VerdictText(v)) && NoColon(DirectionText(d))
  {
  }

  lemma SplitThree(a: string, b: string, c: string)
    requires NoColon(a) && NoColon(b) && NoColon(c)
    ensures Split(a + ":" + (b + ":" + c)) == [a, b, c]
  {
    SplitPart(a, b + ":" + c);
    SplitPart(b, c);
    SplitPart(c, "");
  }

  // ---- The compiled rules ----

  function CidrRules(handle: string, plan: Plan, cidr: Cidr): seq<Rule> {
    [Rule(plan.inner, plan.outer, false, Some(plan.client), Some(cidr), Accept, Comment(handle, Accept, ToDestination)),
     Rule(plan.outer, plan.inner, true, Some(cidr), Some(plan.client), Accept, Comment(handle, Accept, FromDestination))]
  }

  function DropRules(handle: string, plan: Plan): seq<Rule> {
    [Rule(plan.inner, plan.outer, false, None, None, Drop, Comment(handle, Drop, ToDestination)),
     Rule(plan.outer, plan.inner, false, None, None, Drop, Comment(handle, Drop, FromDestination))]
  }

  function AcceptRules(handle: string, plan: Plan, cidrs: seq<Cidr>): (r: seq<Rule>)
    ensures |r| == 2 * |cidrs|
  {
    if cidrs == [] then [] else AcceptRules(handle, plan, cidrs[..|cidrs| - 1]) + CidrRules(handle, plan, cidrs[|cidrs| - 1])
  }

  /** Two rules for each destination and the two drops. */
  function Size(plan: Plan): nat { 2 * |plan.cidrs| + 2 }

  function Block(handle: string, plan: Plan): (r: seq<Rule>)
    ensures |r| == Size(plan)
  {
    AcceptRules(handle, plan, plan.cidrs) + DropRules(handle, plan)
  }

  method CompileRules(handle: string, plan: Plan) returns (rules: seq<Rule>)
    ensures rules == Block(handle, plan)
  {
    rules := [];
    for i := 0 to |plan.cidrs|
      invariant rules == AcceptRules(handle, plan, plan.cidrs[..i])
    {
      assert plan.cidrs[..i + 1][..i] == plan.cidrs[..i];
      rules := rules + CidrRules(handle, plan, plan.cidrs[i]);
    }
    assert plan.cidrs[..|plan.cidrs|] == plan.cidrs;
    rules := rules + DropRules(handle, plan);
  }

  /** On ingress the client interface is inside and the transit interface outside. */
  method IngressForwardRules(handle: string, client: string, transit: string, address: Cidr, cidrs: seq<Cidr>)
      returns (rules: seq<Rule>)
    ensures rules == Block(handle, Plan(client, transit, address, cidrs))
  {
    rules := CompileRules(handle, Plan(client, transit, address, cidrs));
  }

  /** On egress the transit interface is inside and the physical interface outside. */
  method EgressForwardRules(handle: string, transit: string, physical: string, address: Cidr, cidrs: seq<Cidr>)
      returns (rules: seq<Rule>)
    ensures rules == Block(handle, Plan(transit, physical, address, cidrs))
  {
    rules := CompileRules(handle, Plan(transit, physical, address, cidrs));
  }

  // ---- First match ----

  /** The first rule that matches. */
  function FirstMatch(rules: seq<Rule>, p: Packet): Option<Rule> {
    if rules == [] then None else if Matches(rules[0], p) then Some(rules[0]) else FirstMatch(rules[1..], p)
  }

  predicate Outbound(plan: Plan, p: Packet) { p.iif == plan.inner && p.oif == plan.outer }

  predicate Returning(plan: Plan, p: Packet) { p.iif == plan.outer && p.oif == plan.inner }

  predicate OnPair(plan: Plan, p: Packet) { Outbound(plan, p) || Returning(plan, p) }

  predicate InSome(cidrs: seq<Cidr>, address: nat) { exists i :: 0 <= i < |cidrs| && cidrs[i].Contains(address) }

  /** The policy, said without rules: outbound packets go from the client to a listed
      destination, and replies of known connections come back the same way. */
  function Policy(plan: Plan, p: Packet): Verdict
    requires OnPair(plan, p)
  {
    if Outbound(plan, p)
    then if plan.client.Contains(p.source) && InSome(plan.cidrs, p.destination) then Accept else Drop
    else if p.established && plan.client.Contains(p.destination) && InSome(plan.cidrs, p.source) then Accept else Drop
  }

  function DirectionOf(plan: Plan, p: Packet): Direction { if Outbound(plan, p) then ToDestination else FromDestination }

  lemma {:induction false} FirstMatchAppend(a: seq<Rule>, b: seq<Rule>, p: Packet)
    ensures FirstMatch(a + b, p) == if FirstMatch(a, p).Some? then FirstMatch(a, p) else FirstMatch(b, p)
  {
    if a == [] {
      assert a + b == b;
    } else {
      assert (a + b)[1..] == a[1..] + b;
      FirstMatchAppend(a[1..], b, p);
    }
  }

  predicate CidrAdmits(plan: Plan, cidr: Cidr, p: Packet) {
    if Outbound(plan, p) then plan.client.Contains(p.source) && cidr.Contains(p.destination)
    else p.established && cidr.Contains(p.source) && plan.client.Contains(p.destination)
  }

  lemma OneCidr(handle: string, plan: Plan, cidr: Cidr, p: Packet)
    requires plan.inner != plan.outer && OnPair(plan, p)
    ensures var m := FirstMatch(CidrRules(handle, plan, cidr), p);
            && (m.Some? <==> CidrAdmits(plan, cidr, p))
            && (m.Some? ==> m.value.verdict == Accept && m.value.comment == Comment(handle, Accept, DirectionOf(plan, p)))
  {
    var rules := CidrRules(handle, plan, cidr);
    assert rules[1..][0] == rules[1] && rules[1..][1..] == [];
    assert FirstMatch(rules[1..], p) == if Matches(rules[1], p) then Some(rules[1]) else None;
  }

  predicate AnyAdmits(plan: Plan, cidrs: seq<Cidr>, p: Packet) {
    cidrs != [] && (AnyAdmits(plan, cidrs[..|cidrs| - 1], p) || CidrAdmits(plan, cidrs[|cidrs| - 1], p))
  }

  lemma {:induction false} SomeCidr(handle: string, plan: Plan, cidrs: seq<Cidr>, p: Packet)
    requires plan.inner != plan.outer && OnPair(plan, p)
    ensures var m := FirstMatch(AcceptRules(handle, plan, cidrs), p);
            && (m.Some? <==> AnyAdmits(plan, cidrs, p))
            && (m.Some? ==> m.value.verdict == Accept && m.value.comment == Comment(handle, Accept, DirectionOf(plan, p)))
  {
    if cidrs != [] {
      var init, last := cidrs[..|cidrs| - 1], cidrs[|cidrs| - 1];
      SomeCidr(handle, plan, init, p);
      OneCidr(handle, plan, last, p);
      FirstMatchAppend(AcceptRules(handle, plan, init), CidrRules(handle, plan, last), p);
    }
  }

  lemma {:induction false} AnyAdmitsIsPolicy(plan: Plan, cidrs: seq<Cidr>, p: Packet)
    requires OnPair(plan, p)
    ensures AnyAdmits(plan, cidrs, p) <==>
            if Outbound(plan, p) then plan.client.Contains(p.source) && InSome(cidrs, p.destination)
            else p.established && plan.client.Contains(p.destination) && InSome(cidrs, p.source)
  {
    if cidrs != [] {
      var init, last := cidrs[..|cidrs| - 1], cidrs[|cidrs| - 1];
      AnyAdmitsIsPolicy(plan, init, p);
      InSomeAppend(init, last, if Outbound(plan, p) then p.destination else p.source);
      assert cidrs == init + [last];
    }
  }

  lemma InSomeAppend(cidrs: seq<Cidr>, cidr: Cidr, address: nat)
    ensures InSome(cidrs + [cidr], address) <==> InSome(cidrs, address) || cidr.Contains(address)
  {
    assert (cidrs + [cidr])[|cidrs|] == cidr;
    if InSome(cidrs, address) {
      var i :| 0 <= i < |cidrs| && cidrs[i].Contains(address);
      assert (cidrs + [cidr])[i] == cidrs[i];
    }
  }

  /** The compiled block means the policy: on the assignment's interface pair some rule
      matches first, its verdict is the policy's, and its comment names the
      assignment, that verdict and the packet's direction. */
  lemma BlockMeansPolicy(handle: string, plan: Plan, p: Packet)
    requires plan.inner != plan.outer && OnPair(plan, p)
    ensures var m := FirstMatch(Block(handle, plan), p);
            && m.Some? && m.value.verdict == Policy(plan, p)
            && m.value.comment == Comment(handle, Policy(plan, p), DirectionOf(plan, p))
  {
    SomeCidr(handle, plan, plan.cidrs, p);
    FirstMatchAppend(AcceptRules(handle, plan, plan.cidrs), DropRules(handle, plan), p);
    var drops := DropRules(handle, plan);
    assert drops[1..] == [drops[1]];
    AnyAdmitsIsPolicy(plan, plan.cidrs, p);
  }

  // ---- What the rules in place do, while a block is added or deleted ----

  /** What rule `j` of a block says: accepting rules come in pairs, drops last. */
  function Says(plan: Plan, j: nat): (Verdict, Direction) {
    (if j < 2 * |plan.cidrs| then Accept else Drop, if j % 2 == 0 then ToDestination else FromDestination)
  }

  /** A packet on the pair matches rule `j`. */
  predicate Hits(plan: Plan, j: nat, p: Packet) {
    && j % 2 == (if Outbound(plan, p) then 0 else 1)
    && (j < 2 * |plan.cidrs| ==> CidrAdmits(plan, plan.cidrs[j / 2], p))
  }

  lemma {:induction false} AcceptRulesAt(handle: string, plan: Plan, cidrs: seq<Cidr>, j: nat)
    ensures j < 2 * |cidrs| ==> AcceptRules(handle, plan, cidrs)[j] == CidrRules(handle, plan, cidrs[j / 2])[j % 2]
  {
    if cidrs != [] {
      var m := |cidrs| - 1;
      AcceptRulesAt(handle, plan, cidrs[..m], j);
      if j < 2 * m {
        assert cidrs[..m][j / 2] == cidrs[j / 2];
      } else if j < 2 * |cidrs| {
        assert j / 2 == m && j % 2 == j - 2 * m;
      }
    }
  }

  lemma BlockAt(handle: string, plan: Plan, j: nat)
    ensures j < 2 * |plan.cidrs| ==> Block(handle, plan)[j] == CidrRules(handle, plan, plan.cidrs[j / 2])[j % 2]
    ensures 2 * |plan.cidrs| <= j < Size(plan) ==> Block(handle, plan)[j] == DropRules(handle, plan)[j - 2 * |plan.cidrs|]
  {
    AcceptRulesAt(handle, plan, plan.cidrs, j);
  }

  lemma RuleSays(handle: string, plan: Plan, j: nat)
    requires j < Size(plan)
    ensures var r := Block(handle, plan)[j];
            r.verdict == Says(plan, j).0 && r.comment == Comment(handle, Says(plan, j).0, Says(plan, j).1)
  {
    BlockAt(handle, plan, j);
    if j < 2 * |plan.cidrs| {
      CidrSays(handle, plan, plan.cidrs[j / 2], j % 2);
    } else {
      assert j % 2 == j - 2 * |plan.cidrs|;
    }
  }

  lemma CidrSays(handle: string, plan: Plan, cidr: Cidr, side: nat)
    requires side < 2
    ensures var r := CidrRules(handle, plan, cidr)[side];
            r.verdict == Accept && r.comment == Comment(handle, Accept, if side == 0 then ToDestination else FromDestination)
  {
  }

  lemma RuleHits(handle: string, plan: Plan, j: nat, p: Packet)
    requires plan.inner != plan.outer && OnPair(plan, p) && j < Size(plan)
    ensures Matches(Block(handle, plan)[j], p) <==> Hits(plan, j, p)
  {
    BlockAt(handle, plan, j);
    if j < 2 * |plan.cidrs| {
      CidrHits(handle, plan, plan.cidrs[j / 2], j % 2, p);
    } else {
      assert j % 2 == j - 2 * |plan.cidrs|;
    }
  }

  lemma CidrHits(handle: string, plan: Plan, cidr: Cidr, side: nat, p: Packet)
    requires plan.inner != plan.outer && OnPair(plan, p) && side < 2
    ensures Matches(CidrRules(handle, plan, cidr)[side], p) <==>
            side == (if Outbound(plan, p) then 0 else 1) && CidrAdmits(plan, cidr, p)
  {
  }

  /** The first of the rules from `from` up to `until` that a packet matches. */
  function First(plan: Plan, from: nat, until: nat, p: Packet): Option<nat>
    decreases until - from
  {
    if from >= until then None else if Hits(plan, from, p) then Some(from) else First(plan, from + 1, until, p)
  }

  lemma {:induction false} FirstHits(plan: Plan, from: nat, until: nat, p: Packet)
    ensures var first := First(plan, from, until, p);
            && (first.Some? ==> from <= first.value < until && Hits(plan, first.value, p))
            && (forall j :: from <= j < (if first.Some? then first.value else until) ==> !Hits(plan, j, p))
    decreases until - from
  {
    if from < until && !Hits(plan, from, p) {
      FirstHits(plan, from + 1, until, p);
    }
  }

  /** Said of the rules themselves. */
  lemma FirstMatches(handle: string, plan: Plan, from: nat, until: nat, p: Packet)
    requires plan.inner != plan.outer && OnPair(plan, p) && until <= Size(plan)
    ensures var first := First(plan, from, until, p);
            && (first.Some? ==> from <= first.value < until && Matches(Block(handle, plan)[first.value], p))
            && (forall j :: from <= j < until && (first.Some? ==> j < first.value) ==> !Matches(Block(handle, plan)[j], p))
  {
    FirstHits(plan, from, until, p);
    var first := First(plan, from, until, p);
    if first.Some? {
      RuleHits(handle, plan, first.value, p);
    }
    forall j | from <= j < until && (first.Some? ==> j < first.value) ensures !Matches(Block(handle, plan)[j], p) {
      RuleHits(handle, plan, j, p);
    }
  }

  /** Rule `i` is the first that matches, or there is none. */
  lemma {:induction false} FirstMatchAt(rules: seq<Rule>, i: nat, p: Packet)
    requires i <= |rules| && (forall k :: 0 <= k < i ==> !Matches(rules[k], p))
    requires i < |rules| ==> Matches(rules[i], p)
    ensures FirstMatch(rules, p) == if i < |rules| then Some(rules[i]) else None
  {
    if i > 0 {
      FirstMatchAt(rules[1..], i - 1, p);
    }
  }

  lemma FirstIsFirstMatch(handle: string, plan: Plan, from: nat, until: nat, p: Packet)
    requires plan.inner != plan.outer && OnPair(plan, p) && from <= until <= Size(plan)
    ensures match First(plan, from, until, p)
            case None => FirstMatch(Block(handle, plan)[from..until], p) == None
            case Some(j) => j < until && FirstMatch(Block(handle, plan)[from..until], p) == Some(Block(handle, plan)[j])
  {
    FirstMatches(handle, plan, from, until, p);
    var first := First(plan, from, until, p);
    FirstMatchAt(Block(handle, plan)[from..until], (if first.Some? then first.value else until) - from, p);
  }

  /** The verdict of the rules in place. */
  function Remainder(plan: Plan, from: nat, until: nat, p: Packet): Option<Verdict> {
    match First(plan, from, until, p)
    case None => None
    case Some(j) => Some(Says(plan, j).0)
  }

  /** The place in the block of the rule for a packet's direction and destination `i`;
      after the last destination, of the drop rule. */
  function Place(plan: Plan, i: nat, p: Packet): nat { 2 * i + if Outbound(plan, p) then 0 else 1 }

  /** Some rule in place admits the packet. */
  ghost predicate Admitted(plan: Plan, from: nat, until: nat, p: Packet) {
    exists i :: 0 <= i < |plan.cidrs| && from <= Place(plan, i, p) < until && CidrAdmits(plan, plan.cidrs[i], p)
  }

  lemma HitIsPlace(plan: Plan, j: nat, p: Packet)
    requires Hits(plan, j, p)
    ensures j == Place(plan, j / 2, p)
  {
  }

  /** The rules in place accept what one of them admits, drop what none of them admits once
      the drop rule of the direction is in place, and let the rest slip to the chain. */
  lemma RemainderMeans(plan: Plan, from: nat, until: nat, p: Packet)
    requires until <= Size(plan)
    ensures Remainder(plan, from, until, p) == Some(Accept) <==> Admitted(plan, from, until, p)
    ensures Remainder(plan, from, until, p) == Some(Drop) <==>
            !Admitted(plan, from, until, p) && from <= Place(plan, |plan.cidrs|, p) < until
  {
    var m := |plan.cidrs|;
    assert Hits(plan, Place(plan, m, p), p);
    forall i | 0 <= i < m && CidrAdmits(plan, plan.cidrs[i], p) ensures Hits(plan, Place(plan, i, p), p) {
      assert Place(plan, i, p) / 2 == i;
    }
    FirstHits(plan, from, until, p);
    match First(plan, from, until, p)
    case None =>
    case Some(j) =>
      HitIsPlace(plan, j, p);
      if j < 2 * m {
        assert CidrAdmits(plan, plan.cidrs[j / 2], p);
      } else {
        assert j / 2 == m;
      }
  }

  lemma {:induction false} AnyIsSome(plan: Plan, cidrs: seq<Cidr>, p: Packet)
    ensures AnyAdmits(plan, cidrs, p) <==> exists i :: 0 <= i < |cidrs| && CidrAdmits(plan, cidrs[i], p)
  {
    if cidrs != [] {
      var n := |cidrs| - 1;
      AnyIsSome(plan, cidrs[..n], p);
      if AnyAdmits(plan, cidrs[..n], p) {
        var i :| 0 <= i < n && CidrAdmits(plan, cidrs[..n][i], p);
        assert CidrAdmits(plan, cidrs[i], p);
      }
      if exists i :: 0 <= i < |cidrs| && CidrAdmits(plan, cidrs[i], p) {
        var i :| 0 <= i < |cidrs| && CidrAdmits(plan, cidrs[i], p);
        assert i < n ==> CidrAdmits(plan, cidrs[..n][i], p);
      }
    }
  }

  /** The policy accepts what the whole block admits. */
  lemma PolicyAdmits(plan: Plan, p: Packet)
    requires OnPair(plan, p)
    ensures Policy(plan, p) == Accept <==> Admitted(plan, 0, Size(plan), p)
  {
    AnyAdmitsIsPolicy(plan, plan.cidrs, p);
    AnyIsSome(plan, plan.cidrs, p);
    if exists i :: 0 <= i < |plan.cidrs| && CidrAdmits(plan, plan.cidrs[i], p) {
      var i :| 0 <= i < |plan.cidrs| && CidrAdmits(plan, plan.cidrs[i], p);
      assert Place(plan, i, p) < Size(plan);
    }
  }

  /** Against the policy: no rules in place ever accept what it drops. They drop what it
      accepts exactly when every admitting rule is gone or not yet there, and the drop
      rule is in place. Before any deletion, while rules are only added, that does not
      happen, and with the whole block in place nothing slips. */
  lemma RemainderAgainstPolicy(plan: Plan, from: nat, until: nat, p: Packet)
    requires OnPair(plan, p) && until <= Size(plan)
    ensures Remainder(plan, from, until, p) == Some(Accept) ==> Policy(plan, p) == Accept
    ensures Remainder(plan, from, until, p) == Some(Drop) && Policy(plan, p) == Accept <==>
            && Admitted(plan, 0, Size(plan), p) && !Admitted(plan, from, until, p)
            && from <= Place(plan, |plan.cidrs|, p) < until
    ensures from == 0 && Remainder(plan, from, until, p).Some? ==> Remainder(plan, from, until, p) == Some(Policy(plan, p))
    ensures from == 0 && until == Size(plan) ==> Remainder(plan, from, until, p) == Some(Policy(plan, p))
  {
    RemainderMeans(plan, from, until, p);
    PolicyAdmits(plan, p);
    if Admitted(plan, from, until, p) {
      var i :| 0 <= i < |plan.cidrs| && from <= Place(plan, i, p) < until && CidrAdmits(plan, plan.cidrs[i], p);
      assert 0 <= Place(plan, i, p) < Size(plan);
    }
    if from == 0 && Admitted(plan, 0, Size(plan), p) {
      var i :| 0 <= i < |plan.cidrs| && 0 <= Place(plan, i, p) < Size(plan) && CidrAdmits(plan, plan.cidrs[i], p);
      assert Place(plan, i, p) < Place(plan, |plan.cidrs|, p);
    }
  }

  /** One destination, and the first rule of the block deleted: the rules that remain drop
      a packet from the client to that destination. */
  lemma DeletionDropsAccepted(handle: string, plan: Plan, p: Packet)
    requires plan.inner != plan.outer && |plan.cidrs| == 1 && Outbound(plan, p)
    requires plan.client.Contains(p.source) && plan.cidrs[0].Contains(p.destination)
    ensures Policy(plan, p) == Accept
    ensures var m := FirstMatch(Block(handle, plan)[1..Size(plan)], p); m.Some? && m.value.verdict == Drop
  {
    RemainderMeans(plan, 1, Size(plan), p);
    FirstIsFirstMatch(handle, plan, 1, Size(plan), p);
    assert InSome(plan.cidrs, p.destination);
    FirstHits(plan, 1, Size(plan), p);
    if First(plan, 1, Size(plan), p).Some? {
      RuleSays(handle, plan, First(plan, 1, Size(plan), p).value);
    }
  }
}
