/** What the numbered counters of a block show, when each of a sequence of packets raised
    one of them or none. */
module HitCounting {
  import opened Options
  import opened ForwardPolicy

  /** A packet on the pair, the rules `from` up to `until` of the block it found in place,
      and which of them it met. */
  datatype Sighting = Sighting(packet: Packet, from: nat, until: nat, met: Option<nat>)

  /** What counter `j` shows. */
  function HitsAt(seen: seq<Sighting>, j: nat, q: Quantity): nat {
    if seen == [] then 0
    else
      var s := seen[|seen| - 1];
      HitsAt(seen[..|seen| - 1], j, q) + if s.met == Some(j) then q.Each(s.packet.size) else 0
  }

  predicate Under(s: Sighting, plan: Plan, v: Verdict, d: Direction, from: nat, until: nat) {
    s.met.Some? && from <= s.met.value < until && Says(plan, s.met.value) == (v, d)
  }

  /** The packets, or bytes, on the counters `from` up to `until` of one verdict and direction. */
  function Tally(seen: seq<Sighting>, plan: Plan, v: Verdict, d: Direction, from: nat, until: nat, q: Quantity): nat {
    if seen == [] then 0
    else
      var s := seen[|seen| - 1];
      Tally(seen[..|seen| - 1], plan, v, d, from, until, q) + if Under(s, plan, v, d, from, until) then q.Each(s.packet.size) else 0
  }

  lemma HitsNext(seen: seq<Sighting>, s: Sighting, j: nat, q: Quantity)
    ensures HitsAt(seen + [s], j, q) == HitsAt(seen, j, q) + if s.met == Some(j) then q.Each(s.packet.size) else 0
  {
    assert (seen + [s])[..|seen|] == seen;
  }

  lemma {:induction false} TallyOfNone(seen: seq<Sighting>, plan: Plan, v: Verdict, d: Direction, from: nat, until: nat, q: Quantity)
    requires until <= from
    ensures Tally(seen, plan, v, d, from, until, q) == 0
  {
    if seen != [] {
      TallyOfNone(seen[..|seen| - 1], plan, v, d, from, until, q);
    }
  }

  /** The first counter and the others make up the tally. */
  lemma {:induction false} TallySplits(seen: seq<Sighting>, plan: Plan, v: Verdict, d: Direction, from: nat, until: nat, q: Quantity)
    requires from < until
    ensures Tally(seen, plan, v, d, from, until, q) ==
            (if Says(plan, from) == (v, d) then HitsAt(seen, from, q) else 0) + Tally(seen, plan, v, d, from + 1, until, q)
  {
    if seen != [] {
      TallySplits(seen[..|seen| - 1], plan, v, d, from, until, q);
    }
  }

  lemma {:induction false} NeverHit(seen: seq<Sighting>, j: nat, q: Quantity)
    requires forall i :: 0 <= i < |seen| ==> seen[i].met != Some(j)
    ensures HitsAt(seen, j, q) == 0
  {
    if seen != [] {
      NeverHit(seen[..|seen| - 1], j, q);
    }
  }
}
