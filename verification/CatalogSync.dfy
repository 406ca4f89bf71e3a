/** The catalog mirror: the probes database copies gates, probe nodes, targets and what
    belongs to them from a snapshot of the core database. `ProbesDatabase.Sync` issues
    the statements of the program in their order; `Synced` says outright what each
    table holds afterwards. */
module CatalogSync {

  type Key = nat

  datatype Table =
    | Gates | GateStatus | GateConditions | GateLeases | GateAgentDeployments
    | TradingProbeNodes | TradingProbeAuthTokens | TradingProbeTargets

  /** `desired_state` of gates and nodes; a target is `Enabled` or `Disabled`. */
  datatype State = Enabled | Disabled | OtherState(text: string)

  /** `values` are the columns the synchronisation only copies. */
  datatype Row = Row(state: State, gateHost: bool, gate: Key, hasGate: bool, values: string)

  type Rows = map<Key, Row>

  type Catalog = Table -> Rows

  const MIRRORS: seq<Table> :=
    [Gates, GateStatus, GateConditions, GateLeases, GateAgentDeployments, TradingProbeNodes, TradingProbeAuthTokens, TradingProbeTargets]
  const DELETED: seq<Table> := [GateStatus, GateConditions, GateLeases, GateAgentDeployments, TradingProbeAuthTokens]

  /** Tables whose rows are kept, switched off, when the core database drops them. */
  predicate KeepsHistory(t: Table) { t == Gates || t == TradingProbeNodes || t == TradingProbeTargets }

  // ---- The statements ----

  function DisableMissing(rows: Rows, snapshot: Rows): Rows {
    map k | k in rows :: if k in snapshot then rows[k] else rows[k].(state := Disabled)
  }

  function Upsert(rows: Rows, snapshot: Rows): Rows { rows + snapshot }

  predicate HostIsOff(node: Row, gates: Rows) {
    node.gateHost && node.hasGate && node.gate in gates && gates[node.gate].state == Disabled
  }

  function DisableHosted(nodes: Rows, gates: Rows): Rows {
    map k | k in nodes :: if HostIsOff(nodes[k], gates) then nodes[k].(state := Disabled) else nodes[k]
  }

  function DeleteMissing(rows: Rows, snapshot: Rows): Rows { map k | k in rows && k in snapshot :: rows[k] }

  // ---- What a synchronisation leaves ----

  /** Live rows as in the snapshot, retired ones as they were but switched off. */
  function Merged(rows: Rows, snapshot: Rows): Rows {
    map k | k in rows.Keys + snapshot.Keys ::
      if k in snapshot then snapshot[k] else rows[k].(state := Disabled)
  }

  function Synced(db: Catalog, snapshot: Catalog): Catalog {
    t =>
      if !KeepsHistory(t) then snapshot(t)
      else if t == TradingProbeNodes then
        DisableHosted(Merged(db(t), snapshot(t)), Merged(db(Gates), snapshot(Gates)))
      else Merged(db(t), snapshot(t))
  }

  class ProbesDatabase {
    var tables: map<Table, Rows>

    ghost predicate Valid()
      reads this
    {
      forall t: Table :: t in tables
    }

    ghost function Contents(t: Table): Rows
      reads this
      requires Valid()
    {
      tables[t]
    }

    /** One transaction. */
    method Sync(snapshot: Catalog)
      requires Valid()
      modifies this
      ensures Valid()
      ensures forall t :: Contents(t) == Synced(Of(old(tables)), snapshot)(t)
    {
      ghost var before := Of(tables);
      DisableRetired(snapshot);
      MirrorsAreDistinct();
      MirrorAll(MIRRORS, snapshot);
      Set(TradingProbeNodes, DisableHosted(tables[TradingProbeNodes], tables[Gates]));
      DeleteFrom(DELETED, snapshot);
      forall t ensures Contents(t) == Synced(before, snapshot)(t) {
        StatementsCompose(before, snapshot, t);
      }
    }

    method DisableRetired(snapshot: Catalog)
      requires Valid()
      modifies this
      ensures Valid()
      ensures forall t :: tables[t] == if KeepsHistory(t) then DisableMissing(old(tables)[t], snapshot(t)) else old(tables)[t]
    {
      Set(Gates, DisableMissing(tables[Gates], snapshot(Gates)));
      Set(TradingProbeNodes, DisableMissing(tables[TradingProbeNodes], snapshot(TradingProbeNodes)));
      Set(TradingProbeTargets, DisableMissing(tables[TradingProbeTargets], snapshot(TradingProbeTargets)));
    }

    method Set(t: Table, rows: Rows)
      requires Valid()
      modifies this
      ensures Valid() && forall t' :: tables[t'] == if t' == t then rows else old(tables)[t']
    {
      tables := tables[t := rows];
    }

    method MirrorAll(mirrors: seq<Table>, snapshot: Catalog)
      requires Valid() && Distinct(mirrors)
      modifies this
      ensures Valid() && forall t :: tables[t] == if t in mirrors then Upsert(old(tables)[t], snapshot(t)) else old(tables)[t]
    {
      for i := 0 to |mirrors|
        invariant Valid()
        invariant forall t :: tables[t] == if t in mirrors[..i] then Upsert(old(tables)[t], snapshot(t)) else old(tables)[t]
      {
        var table := mirrors[i];
        Set(table, Upsert(tables[table], snapshot(table)));
      }
    }

    method DeleteFrom(deleted: seq<Table>, snapshot: Catalog)
      requires Valid() && Distinct(deleted)
      modifies this
      ensures Valid()
      ensures forall t :: tables[t] == if t in deleted then DeleteMissing(old(tables)[t], snapshot(t)) else old(tables)[t]
    {
      for i := 0 to |deleted|
        invariant Valid()
        invariant forall t :: tables[t] == if t in deleted[..i] then DeleteMissing(old(tables)[t], snapshot(t)) else old(tables)[t]
      {
        var table := deleted[i];
        Set(table, DeleteMissing(tables[table], snapshot(table)));
      }
    }
  }

  function Of(tables: map<Table, Rows>): Catalog { t => if t in tables then tables[t] else map[] }

  ghost predicate Distinct(tables: seq<Table>) {
    forall i, j :: 0 <= i < j < |tables| ==> tables[i] != tables[j]
  }

  /** Every table is mirrored, and exactly those without history are deleted from. */
  lemma MirrorsAreDistinct()
    ensures Distinct(MIRRORS) && Distinct(DELETED)
    ensures forall t: Table :: t in MIRRORS
    ensures forall t: Table :: t in DELETED <==> !KeepsHistory(t)
  {
    forall t: Table ensures t in MIRRORS && (t in DELETED <==> !KeepsHistory(t)) {
      match t
      case Gates => assert MIRRORS[0] == t;
      case GateStatus => assert MIRRORS[1] == t && DELETED[0] == t;
      case GateConditions => assert MIRRORS[2] == t && DELETED[1] == t;
      case GateLeases => assert MIRRORS[3] == t && DELETED[2] == t;
      case GateAgentDeployments => assert MIRRORS[4] == t && DELETED[3] == t;
      case TradingProbeNodes => assert MIRRORS[5] == t;
      case TradingProbeAuthTokens => assert MIRRORS[6] == t && DELETED[4] == t;
      case TradingProbeTargets => assert MIRRORS[7] == t;
    }
  }

  lemma DisableThenUpsert(rows: Rows, snapshot: Rows)
    ensures Upsert(DisableMissing(rows, snapshot), snapshot) == Merged(rows, snapshot)
  {
  }

  lemma UpsertThenDelete(rows: Rows, snapshot: Rows)
    ensures DeleteMissing(Upsert(rows, snapshot), snapshot) == snapshot
  {
  }

  /** The statements, one after the other, leave each table as `Synced` says. */
  lemma StatementsCompose(db: Catalog, snapshot: Catalog, t: Table)
    ensures Synced(db, snapshot)(t) ==
            if !KeepsHistory(t) then DeleteMissing(Upsert(db(t), snapshot(t)), snapshot(t))
            else if t == TradingProbeNodes then
              DisableHosted(Upsert(DisableMissing(db(t), snapshot(t)), snapshot(t)),
                            Upsert(DisableMissing(db(Gates), snapshot(Gates)), snapshot(Gates)))
            else Upsert(DisableMissing(db(t), snapshot(t)), snapshot(t))
  {
    DisableThenUpsert(db(t), snapshot(t));
    DisableThenUpsert(db(Gates), snapshot(Gates));
    UpsertThenDelete(db(t), snapshot(t));
  }

  // ---- What follows ----

  /** What is scheduled after a synchronisation is exactly what the snapshot enables,
      less the nodes hosted by a gate that is off there or has been retired. */
  lemma EnabledExactly(db: Catalog, snapshot: Catalog, t: Table, k: Key)
    requires KeepsHistory(t)
    ensures var after := Synced(db, snapshot);
            k in after(t) && after(t)[k].state == Enabled <==>
              && k in snapshot(t) && snapshot(t)[k].state == Enabled
              && !(t == TradingProbeNodes && HostIsOff(snapshot(t)[k], after(Gates)))
  {
  }

  /** No row of the three tables disappears, and none changes but for its state unless
      the snapshot has it. */
  lemma HistoryKept(db: Catalog, snapshot: Catalog, t: Table, k: Key)
    requires KeepsHistory(t) && k in db(t)
    ensures var after := Synced(db, snapshot)(t);
            k in after && (k !in snapshot(t) ==> after[k] == db(t)[k].(state := Disabled))
  {
  }

  lemma NodesKept(db: Catalog, snapshot: Catalog)
    ensures db(TradingProbeNodes).Keys <= Synced(db, snapshot)(TradingProbeNodes).Keys
  {
    forall k | k in db(TradingProbeNodes) ensures k in Synced(db, snapshot)(TradingProbeNodes) {
      HistoryKept(db, snapshot, TradingProbeNodes, k);
    }
  }

  lemma SecondNodesAreIdle(db: Catalog, snapshot: Catalog)
    ensures Synced(Synced(db, snapshot), snapshot)(TradingProbeNodes) == Synced(db, snapshot)(TradingProbeNodes)
  {
    var once := Synced(db, snapshot);
    var was, now := once(TradingProbeNodes), Synced(once, snapshot)(TradingProbeNodes);
    assert once(Gates) == Merged(db(Gates), snapshot(Gates));
    assert Merged(once(Gates), snapshot(Gates)) == once(Gates);
    NodesKept(once, snapshot);
    forall k | k in now ensures k in was && now[k] == was[k] {
    }
    assert now.Keys == was.Keys;
  }

  /** Synchronising the same snapshot again changes nothing: its disabling statements and
      its upserts do not undo one another. */
  lemma SecondSyncIsIdle(db: Catalog, snapshot: Catalog, t: Table)
    ensures Synced(Synced(db, snapshot), snapshot)(t) == Synced(db, snapshot)(t)
  {
    if t == TradingProbeNodes {
      SecondNodesAreIdle(db, snapshot);
    } else {
      var once := Synced(db, snapshot);
      assert KeepsHistory(t) ==> Merged(once(t), snapshot(t)) == once(t);
    }
  }

  /** The node is hosted by a gate that only an earlier snapshot made known here. */
  predicate HostKnownFrom(node: Row, earlier: Rows, db: Rows, snapshot: Rows) {
    node.gateHost && node.hasGate && node.gate in earlier && node.gate !in db && node.gate !in snapshot
  }

  lemma HostOfLast(node: Row, earlier: Rows, db: Rows, snapshot: Rows)
    ensures HostIsOff(node, Merged(Merged(db, earlier), snapshot)) <==>
            HostIsOff(node, Merged(db, snapshot)) || HostKnownFrom(node, earlier, db, snapshot)
  {
  }

  lemma NodeAfter(db: Catalog, snapshot: Catalog, k: Key)
    requires k in snapshot(TradingProbeNodes)
    ensures var node, after := snapshot(TradingProbeNodes)[k], Synced(db, snapshot)(TradingProbeNodes);
            k in after && after[k] == if HostIsOff(node, Merged(db(Gates), snapshot(Gates))) then node.(state := Disabled) else node
  {
  }

  lemma LastNodeWins(db: Catalog, earlier: Catalog, snapshot: Catalog, k: Key)
    requires k in snapshot(TradingProbeNodes)
    ensures var node := snapshot(TradingProbeNodes)[k];
            var after, alone := Synced(Synced(db, earlier), snapshot)(TradingProbeNodes), Synced(db, snapshot)(TradingProbeNodes);
            && k in after && k in alone
            && (after[k] == alone[k] <==>
                  !(node.state != Disabled && HostKnownFrom(node, earlier(Gates), db(Gates), snapshot(Gates))))
  {
    assert Synced(db, earlier)(Gates) == Merged(db(Gates), earlier(Gates));
    NodeAfter(Synced(db, earlier), snapshot, k);
    NodeAfter(db, snapshot, k);
    HostOfLast(snapshot(TradingProbeNodes)[k], earlier(Gates), db(Gates), snapshot(Gates));
  }

  /** A later snapshot takes over: on its keys the result does not depend on an earlier
      one, except exactly for a node not disabled whose hosting gate the snapshot lacks
      and only the earlier one brought: that gate is then retired, and the node off. */
  lemma LastSnapshotWins(db: Catalog, earlier: Catalog, snapshot: Catalog, t: Table, k: Key)
    requires k in snapshot(t)
    ensures k in Synced(Synced(db, earlier), snapshot)(t) && k in Synced(db, snapshot)(t)
    ensures Synced(Synced(db, earlier), snapshot)(t)[k] == Synced(db, snapshot)(t)[k] <==>
            !(t == TradingProbeNodes && snapshot(t)[k].state != Disabled
              && HostKnownFrom(snapshot(t)[k], earlier(Gates), db(Gates), snapshot(Gates)))
  {
    if t == TradingProbeNodes {
      LastNodeWins(db, earlier, snapshot, k);
    }
  }
}
