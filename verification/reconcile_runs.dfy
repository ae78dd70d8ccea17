/** The connection tables and the backend pool as one system. The pool is the order of its
    nodes; what a node is, and how many connections it has, is in the tables. */
module ReconcileRuns {
  import opened Backends
  import opened Reconcile
  import opened ReconcileLaws
  import opened Lifecycle
  import opened LifecycleInvariants
  import opened LifecycleRuns
  import opened LifecycleNodes
  import opened ReconcileLifecycle

  datatype System = System(tables: State, order: seq<NodeId>)

  ghost predicate Distinct(ids: seq<NodeId>) {
    forall i, j :: 0 <= i < j < |ids| ==> ids[i] != ids[j]
  }

  ghost predicate UniqueIds(bs: seq<Backend>) {
    forall i, j :: 0 <= i < j < |bs| ==> bs[i].id != bs[j].id
  }

  ghost predicate Indexed(nodes: map<NodeId, Backend>, order: seq<NodeId>) {
    && Distinct(order)
    && (forall id :: id in order ==> id in nodes)
    && (forall id :: id in nodes ==> id in order)
    && (forall id :: id in nodes ==> nodes[id].id == id)
  }

  /** The pool as `get_all_backends` returns it. */
  ghost function Listing(nodes: map<NodeId, Backend>, order: seq<NodeId>): (bs: seq<Backend>)
    requires forall id :: id in order ==> id in nodes
    ensures |bs| == |order|
  {
    seq(|order|, i requires 0 <= i < |order| => assert order[i] in order; nodes[order[i]])
  }

  function IdsOf(bs: seq<Backend>): (ids: seq<NodeId>)
    ensures |ids| == |bs|
  {
    seq(|bs|, i requires 0 <= i < |bs| => bs[i].id)
  }

  ghost function NodesOf(bs: seq<Backend>): map<NodeId, Backend> {
    if bs == [] then map[] else NodesOf(bs[..|bs| - 1])[bs[|bs| - 1].id := bs[|bs| - 1]]
  }

  /** Tables and pool agree, and no two nodes have the same host and port. */
  ghost predicate Tied(y: System) {
    Indexed(y.tables.nodes, y.order) && UniqueKeys(Listing(y.tables.nodes, y.order))
  }

  ghost predicate SystemInv(y: System) {
    Inv(y.tables, 0) && Tied(y)
  }

  // ---------------------------------------------------------------- steps

  datatype Event = Table(step: Step) | Pool(change: PoolStep)

  /** Objects that are created are new, and only the tables change connection counts. */
  ghost predicate MayHappen(y: System, e: Event)
    requires Tied(y)
  {
    match e
    case Table(step) => !step.PoolChanged?
    case Pool(Configure(cfg, ids)) => |cfg| == |ids| && Distinct(ids) && NewIds(y.tables, ids)
    case Pool(Cleanup) => true
    case Pool(Start(_, id)) => NewIds(y.tables, [id])
    case Pool(Change(i, _, active)) => i < |y.order| && active == Listing(y.tables.nodes, y.order)[i].active
  }

  ghost function PoolAfter(y: System, step: PoolStep): seq<Backend>
    requires Tied(y)
  {
    PoolApply(Listing(y.tables.nodes, y.order), step)
  }

  ghost function Happens(y: System, e: Event): System
    requires Tied(y)
  {
    match e
    case Table(step) => y.(tables := Apply(y.tables, step))
    case Pool(step) =>
      var bs := PoolAfter(y, step);
      System(y.tables.(nodes := NodesOf(bs)), IdsOf(bs))
  }

  /** A history of the system, each event possible when it happens. */
  ghost predicate Leads(y: System, events: seq<Event>, z: System)
    decreases |events|
  {
    if events == [] then z == y
    else Tied(y) && MayHappen(y, events[0]) && Leads(Happens(y, events[0]), events[1..], z)
  }

  // ---------------------------------------------------------------- identities

  lemma ListingIsListed(nodes: map<NodeId, Backend>, order: seq<NodeId>)
    requires Indexed(nodes, order)
    ensures Lists(Listing(nodes, order), nodes) && UniqueIds(Listing(nodes, order))
  {
    var bs := Listing(nodes, order);
    assert forall i :: 0 <= i < |order| ==> order[i] in order && bs[i] == nodes[order[i]] && bs[i].id == order[i];
    forall id | id in nodes
      ensures nodes[id] in bs
    {
      var i :| 0 <= i < |order| && order[i] == id;
      assert bs[i] == nodes[id];
    }
  }

  lemma {:induction false} NodesOfLists(bs: seq<Backend>)
    requires UniqueIds(bs)
    ensures Lists(bs, NodesOf(bs))
  {
    if bs != [] {
      var n := |bs| - 1;
      var front, last := bs[..n], bs[n];
      NodesOfLists(front);
      assert bs == front + [last];
      hide UniqueIds, NodesOf;
      if last.id in NodesOf(front) {
        OneOfUniqueIds(bs, NodesOf(front)[last.id]);
      }
      OneMoreListed(front, last, NodesOf(front));
    }
  }

  lemma OneMoreListed(bs: seq<Backend>, b: Backend, nodes: map<NodeId, Backend>)
    requires Lists(bs, nodes) && b.id !in nodes
    ensures Lists(bs + [b], nodes[b.id := b])
  {
  }

  lemma NodesOfIndexes(bs: seq<Backend>)
    requires UniqueIds(bs)
    ensures Indexed(NodesOf(bs), IdsOf(bs)) && Listing(NodesOf(bs), IdsOf(bs)) == bs
  {
    hide NodesOf;
    NodesOfLists(bs);
    assert forall i :: 0 <= i < |bs| ==> bs[i] in bs && IdsOf(bs)[i] == bs[i].id;
    forall id | id in NodesOf(bs)
      ensures id in IdsOf(bs)
    {
      var i :| 0 <= i < |bs| && bs[i] == NodesOf(bs)[id];
      assert IdsOf(bs)[i] == id;
    }
  }

  lemma JoinedIds(a: seq<Backend>, b: seq<Backend>)
    requires UniqueIds(a) && UniqueIds(b)
    requires forall x, y :: x in a && y in b ==> x.id != y.id
    ensures UniqueIds(a + b)
  {
    forall i, j | 0 <= i < j < |a + b|
      ensures (a + b)[i].id != (a + b)[j].id
    {
      if i < |a| <= j {
        assert a[i] in a && b[j - |a|] in b;
      }
    }
  }

  lemma OneOfUniqueIds(bs: seq<Backend>, b: Backend)
    requires UniqueIds(bs) && bs != [] && b in bs[..|bs| - 1]
    ensures b.id != bs[|bs| - 1].id
  {
    var i :| 0 <= i < |bs| - 1 && bs[i] == b;
  }

  /** Identities stay distinct through the three loops. */
  lemma {:induction false} SettledIds(bs: seq<Backend>, keys: set<Key>)
    requires UniqueIds(bs)
    ensures UniqueIds(Settled(bs, keys))
  {
    if bs != [] {
      var n := |bs| - 1;
      var front, last := Settled(bs[..n], keys), Settle(bs[n], keys);
      SettledIds(bs[..n], keys);
      hide Settle, Settled, UniqueIds;
      forall x, y | x in front && y in last
        ensures x.id != y.id
      {
        var b := SettledFrom(bs[..n], keys, x);
        SettleKeeps(b, keys);
        SettleKeeps(bs[n], keys);
        SettleLength(bs[n], keys);
        OneOfUniqueIds(bs, b);
      }
      assert UniqueIds(last) by { ShortIsUnique(last); SettleLength(bs[n], keys); }
      JoinedIds(front, last);
    }
  }

  lemma ShortIsUnique(bs: seq<Backend>)
    ensures |bs| <= 1 ==> UniqueIds(bs)
  {
  }

  lemma {:induction false} AddedIds(bs: seq<Backend>, cfg: seq<Entry>, ids: seq<NodeId>, n: nat)
    requires n <= |cfg| == |ids| && Distinct(ids)
    ensures UniqueIds(Added(bs, cfg, ids, n))
    ensures forall b :: b in Added(bs, cfg, ids, n) ==> b.id in ids[..n]
    decreases n
  {
    if n > 0 {
      AddedIds(bs, cfg, ids, n - 1);
      var front, last := Added(bs, cfg, ids, n - 1), NewNode(cfg[n - 1], ids[n - 1]);
      hide UniqueIds, HasKey;
      assert ids[..n] == ids[..n - 1] + [ids[n - 1]];
      assert ids[n - 1] !in ids[..n - 1];
      ShortIsUnique([last]);
      JoinedIds(front, [last]);
      assert front + [] == front;
    }
  }

  lemma {:induction false} FilterIds(bs: seq<Backend>)
    requires UniqueIds(bs)
    ensures UniqueIds(Filter(bs))
  {
    if bs != [] {
      var n := |bs| - 1;
      var front, last := Filter(bs[..n]), bs[n];
      FilterIds(bs[..n]);
      hide UniqueIds;
      forall x | x in front
        ensures x.id != last.id
      {
        FilterKeeps(bs[..n], x);
        OneOfUniqueIds(bs, x);
      }
      ShortIsUnique([last]);
      JoinedIds(front, [last]);
      assert front + [] == front;
    }
  }

  lemma ReconciledIds(s: State, bs: seq<Backend>, cfg: seq<Entry>, ids: seq<NodeId>)
    requires UniqueKeys(bs) && |cfg| == |ids| && Distinct(ids) && NewIds(s, ids) && UniqueIds(bs) && Lists(bs, s.nodes)
    ensures UniqueIds(Reconciled(bs, cfg, ids))
  {
    hide UniqueKeys, Reconciled, Settle, Settled, Added, Keys, Distinct, UniqueIds;
    var t, a := Settled(bs, Keys(cfg)), Added(bs, cfg, ids, |cfg|);
    ReconciledIs(bs, cfg, ids);
    SettledIds(bs, Keys(cfg));
    AddedIds(bs, cfg, ids, |cfg|);
    forall x, y | x in t && y in a
      ensures x.id != y.id
    {
      var b := SettledFrom(bs, Keys(cfg), x);
      SettleKeeps(b, Keys(cfg));
      assert y.id in ids;
    }
    JoinedIds(t, a);
  }

  // ---------------------------------------------------------------- pool events

  /** A pool event leaves distinct identities and unique keys, and the tables allow it. */
  lemma PoolEventIsAllowed(y: System, step: PoolStep)
    requires Tied(y) && MayHappen(y, Pool(step))
    ensures var bs := PoolAfter(y, step);
      UniqueIds(bs) && UniqueKeys(bs) && PoolMayBecome(y.tables, NodesOf(bs))
  {
    var s, bs := y.tables, Listing(y.tables.nodes, y.order);
    ListingIsListed(s.nodes, y.order);
    KeysStayUniqueOnce(bs, step);
    hide UniqueKeys, Listing, NodesOf, PoolMayBecome;
    match step
    case Configure(cfg, ids) =>
      ReconciledIds(s, bs, cfg, ids);
      NodesOfLists(Reconciled(bs, cfg, ids));
      ReconcileIsAPoolChange(s, bs, cfg, ids, NodesOf(Reconciled(bs, cfg, ids)));
    case Cleanup => CleanupIsAllowed(s, bs);
    case Start(e, id) => StartIsAllowed(s, bs, e, id);
    case Change(i, health, active) => ChangeIsAllowed(s, bs, i, health);
  }

  lemma KeysStayUniqueOnce(bs: seq<Backend>, step: PoolStep)
    requires UniqueKeys(bs)
    ensures UniqueKeys(PoolApply(bs, step))
  {
    hide UniqueKeys, PoolApply;
    KeysStayUnique(bs, [step]);
    assert PoolRun(bs, [step]) == PoolApply(bs, step) by {
      assert [step][1..] == [];
      assert PoolRun(PoolApply(bs, step), []) == PoolApply(bs, step);
    }
  }

  lemma CleanupIsAllowed(s: State, bs: seq<Backend>)
    requires UniqueKeys(bs) && UniqueIds(bs) && Lists(bs, s.nodes)
    ensures UniqueIds(Cleaned(bs)) && PoolMayBecome(s, NodesOf(Cleaned(bs)))
  {
    hide UniqueKeys, UniqueIds, Cleaned, NodesOf, Filter;
    CleanedIsFilter(bs);
    FilterIds(bs);
    var t := Cleaned(bs);
    NodesOfLists(t);
    forall b
      ensures b in t <==> b in bs && !Drained(b)
    {
      CleanupDropsOnlyDrained(bs, b);
    }
    forall id | id in s.nodes && id !in NodesOf(t)
      ensures s.nodes[id].active == 0
    {
      assert s.nodes[id] in bs && s.nodes[id] !in t;
    }
    forall id | id in NodesOf(t)
      ensures id in s.nodes && s.nodes[id] == NodesOf(t)[id]
    {
      assert NodesOf(t)[id] in t && NodesOf(t)[id] in bs;
    }
  }

  lemma StartIsAllowed(s: State, bs: seq<Backend>, e: Entry, id: NodeId)
    requires UniqueIds(bs) && Lists(bs, s.nodes) && NewIds(s, [id])
    ensures var t := PoolApply(bs, Start(e, id));
      UniqueIds(t) && PoolMayBecome(s, NodesOf(t))
  {
    hide NodesOf, UniqueIds;
    var t := PoolApply(bs, Start(e, id));
    assert id in [id];
    ShortIsUnique([NewNode(e, id)]);
    JoinedIds(bs, [NewNode(e, id)]);
    NodesOfLists(t);
  }

  lemma ChangeIsAllowed(s: State, bs: seq<Backend>, i: nat, health: Health)
    requires i < |bs| && UniqueIds(bs) && Lists(bs, s.nodes)
    ensures var t := PoolApply(bs, Change(i, health, bs[i].active));
      UniqueIds(t) && PoolMayBecome(s, NodesOf(t))
  {
    hide NodesOf;
    var t := PoolApply(bs, Change(i, health, bs[i].active));
    assert UniqueIds(t);
    hide UniqueIds;
    NodesOfLists(t);
    forall id | id in NodesOf(t)
      ensures id in s.nodes && NodesOf(t)[id].active == s.nodes[id].active
    {
      var c := NodesOf(t)[id];
      var k :| 0 <= k < |t| && t[k] == c;
      assert bs[k] in bs;
    }
    forall id | id in s.nodes
      ensures id in NodesOf(t)
    {
      var k :| 0 <= k < |bs| && bs[k] == s.nodes[id];
      assert t[k] in t && t[k].id == id;
    }
  }

  // ---------------------------------------------------------------- every history

  lemma AlikeStaysTied(y: System, nodes: map<NodeId, Backend>)
    requires Tied(y) && Alike(y.tables.nodes, nodes)
    ensures Tied(y.(tables := y.tables.(nodes := nodes)))
  {
    var was, now := Listing(y.tables.nodes, y.order), Listing(nodes, y.order);
    assert forall i :: 0 <= i < |y.order| ==> y.order[i] in y.order && now[i].Key() == was[i].Key();
  }

  lemma EventKeepsInv(y: System, e: Event)
    requires SystemInv(y) && MayHappen(y, e)
    ensures SystemInv(Happens(y, e))
  {
    hide Inv, Apply, Listing, PoolMayBecome, UniqueKeys, Alike, Indexed;
    match e
    case Table(step) =>
      StepKeepsInv(y.tables, step);
      StepsAreAlike(y.tables, step);
      AlikeStaysTied(y, Apply(y.tables, step).nodes);
    case Pool(step) =>
      hide MayHappen;
      var bs := PoolAfter(y, step);
      PoolEventIsAllowed(y, step);
      PoolChangeKeepsInv(y.tables, NodesOf(bs));
      NodesOfIndexes(bs);
  }

  lemma {:induction false} HistoryKeepsInv(y: System, events: seq<Event>, z: System)
    requires SystemInv(y) && Leads(y, events, z)
    ensures SystemInv(z)
    decreases |events|
  {
    hide Inv, Happens, MayHappen, Tied;
    if events != [] {
      EventKeepsInv(y, events[0]);
      HistoryKeepsInv(Happens(y, events[0]), events[1..], z);
    }
  }

  /** The proxy before its first backend and its first client. */
  ghost predicate Started(y: System) {
    Fresh(y.tables) && y.tables.nodes == map[] && y.order == []
  }

  lemma StartedIsInOrder(y: System)
    requires Started(y)
    ensures SystemInv(y)
  {
    hide Inv;
    FreshIsInOrder(y.tables);
  }

  /** In every history of tables and pool together both invariants hold: the tables are
      consistent, the pool lists exactly their nodes, and no key occurs twice. */
  lemma SystemStaysConsistent(start: System, events: seq<Event>, y: System)
    requires Started(start) && Leads(start, events, y)
    ensures Inv(y.tables, 0) && Indexed(y.tables.nodes, y.order)
    ensures UniqueKeys(Listing(y.tables.nodes, y.order))
  {
    hide Inv;
    StartedIsInOrder(start);
    HistoryKeepsInv(start, events, y);
  }

  /** Whenever a configuration is applied in such a history: every configured backend is present
      and not draining, every other node that remains is draining with connections, and a node
      that is removed has no established connection. */
  lemma ConfiguringIsSafe(start: System, events: seq<Event>, y: System, cfg: seq<Entry>, ids: seq<NodeId>, id: NodeId)
    requires Started(start) && Leads(start, events, y)
    requires |cfg| == |ids| && Distinct(ids) && NewIds(y.tables, ids)
    ensures Tied(y)
    ensures var z := Happens(y, Pool(Configure(cfg, ids)));
      && SystemInv(z)
      && (forall e :: e in cfg ==> HasKey(Listing(z.tables.nodes, z.order), e.Key()))
      && (forall i :: i in z.tables.nodes && z.tables.nodes[i].Key() in Keys(cfg) ==>
            !z.tables.nodes[i].health.Draining?)
      && (forall i :: i in z.tables.nodes && z.tables.nodes[i].Key() !in Keys(cfg) ==>
            z.tables.nodes[i].health.Draining? && Holders(z.tables, i) != {})
      && (id in y.tables.nodes && id !in z.tables.nodes ==> Holders(y.tables, id) == {})
  {
    hide Inv, Listing, UniqueKeys, NodesOf, Reconciled, Keys, PoolMayBecome, Holders, HasKey, IdsOf;
    SystemStaysConsistent(start, events, y);
    var step := Configure(cfg, ids);
    var bs := Listing(y.tables.nodes, y.order);
    var t := Reconciled(bs, cfg, ids);
    var z := Happens(y, Pool(step));
    EventKeepsInv(y, Pool(step));
    ReconcileIsRight(bs, cfg, ids);
    PoolEventIsAllowed(y, step);
    NodesOfIndexes(t);
    NodesOfLists(t);
    if id in y.tables.nodes && id !in z.tables.nodes {
      RemovedNodesAreIdle(y.tables, NodesOf(t), id);
    }
    forall i | i in z.tables.nodes && z.tables.nodes[i].Key() !in Keys(cfg)
      ensures z.tables.nodes[i].health.Draining? && Holders(z.tables, i) != {}
    {
      BusyIsHeld(z.tables, i);
    }
  }

  lemma BusyIsHeld(s: State, id: NodeId)
    requires Inv(s, 0) && id in s.nodes && s.nodes[id].active > 0
    ensures Holders(s, id) != {}
  {
  }
}
