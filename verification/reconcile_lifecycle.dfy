/** A reconcile seen from the connection lifecycle, and pools over whole runs. */
module ReconcileLifecycle {
  import opened Backends
  import opened Reconcile
  import opened ReconcileLaws
  import opened Lifecycle
  import opened LifecycleInvariants
  import opened LifecycleRuns

  /** The pool lists exactly the nodes of the lifecycle state. */
  ghost predicate Lists(bs: seq<Backend>, nodes: map<NodeId, Backend>) {
    && (forall b :: b in bs ==> b.id in nodes && nodes[b.id] == b)
    && (forall id :: id in nodes ==> nodes[id] in bs && nodes[id].id == id)
  }

  /** The identities of new objects are in use nowhere. */
  ghost predicate NewIds(s: State, ids: seq<NodeId>) {
    forall id :: id in ids ==> id !in s.nodes && id !in s.nodeOf.Values
  }

  /** A reconcile is a pool change that the lifecycle allows: nodes that go are idle, nodes that
      stay keep their count, nodes that come have none. */
  lemma ReconcileIsAPoolChange(s: State, bs: seq<Backend>, cfg: seq<Entry>, ids: seq<NodeId>,
      nodes: map<NodeId, Backend>)
    requires UniqueKeys(bs) && |cfg| == |ids| && NewIds(s, ids)
    requires Lists(bs, s.nodes) && Lists(Reconciled(bs, cfg, ids), nodes)
    ensures PoolMayBecome(s, nodes)
  {
    hide UniqueKeys, Reconciled, Settle, Settled, Added, Keys;
    var keys, r := Keys(cfg), Reconciled(bs, cfg, ids);
    ReconciledIs(bs, cfg, ids);
    forall id | id in nodes
      ensures id in s.nodes ==> nodes[id].active == s.nodes[id].active
      ensures id !in s.nodes ==> nodes[id].active == 0 && id !in s.nodeOf.Values
    {
      var c := nodes[id];
      if c in Settled(bs, keys) {
        var b := SettledFrom(bs, keys, c);
        SettleKeeps(b, keys);
      } else {
        var i := AddedFrom(bs, cfg, ids, |cfg|, c);
        assert ids[i] in ids;
      }
    }
    forall id | id in s.nodes && id !in nodes
      ensures s.nodes[id].active == 0
    {
      var b := s.nodes[id];
      Goes(b, keys);
      if Settle(b, keys) != [] {
        SettledHas(bs, keys, b);
        SettleKeeps(b, keys);
      }
    }
  }

  lemma Goes(b: Backend, keys: set<Key>)
    ensures Settle(b, keys) == [] ==> b.active == 0
  {
  }

  /** In every state that a run reaches, a reconcile keeps the whole invariant, and a node that it
      removes has no established connection. */
  lemma ReconcileIsSafe(s: State, bs: seq<Backend>, cfg: seq<Entry>, ids: seq<NodeId>, nodes: map<NodeId,
      Backend>, id: NodeId)
    requires Inv(s, 0) && UniqueKeys(bs) && |cfg| == |ids| && NewIds(s, ids)
    requires Lists(bs, s.nodes) && Lists(Reconciled(bs, cfg, ids), nodes)
    ensures Inv(s.(nodes := nodes), 0)
    ensures id in s.nodes && id !in nodes ==> Holders(s, id) == {}
  {
    hide Inv, UniqueKeys, Reconciled, Lists, PoolMayBecome, Holders;
    ReconcileIsAPoolChange(s, bs, cfg, ids, nodes);
    PoolChangeKeepsInv(s, nodes);
    if id in s.nodes && id !in nodes {
      RemovedNodesAreIdle(s, nodes, id);
    }
  }
}
