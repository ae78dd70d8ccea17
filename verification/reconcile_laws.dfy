/** What a reconcile leaves in the pool: a closed form, and what follows from it. */
module ReconcileLaws {
  import opened Backends
  import opened Routing
  import opened Reconcile

  ghost predicate HasKey(bs: seq<Backend>, key: Key) {
    exists i :: 0 <= i < |bs| && bs[i].Key() == key
  }

  ghost predicate UniqueKeys(bs: seq<Backend>) {
    forall i, j :: 0 <= i < j < |bs| ==> bs[i].Key() != bs[j].Key()
  }

  /** What becomes of a node that was there: configured nodes stay and no longer drain, others
      drain, and go once nothing is open to them. */
  function Settle(b: Backend, keys: set<Key>): seq<Backend> {
    if b.Key() in keys then [if b.health.Draining? then b.(health := Healthy) else b]
    else if b.active > 0 then [b.(health := Draining)]
    else []
  }

  function Settled(bs: seq<Backend>, keys: set<Key>): seq<Backend> {
    if bs == [] then [] else Settled(bs[..|bs| - 1], keys) + Settle(bs[|bs| - 1], keys)
  }

  /** The nodes that are new: the first entry for each key that the pool did not have. */
  ghost function Added(bs: seq<Backend>, cfg: seq<Entry>, ids: seq<NodeId>, n: nat): seq<Backend>
    requires n <= |cfg| == |ids|
    decreases n
  {
    if n == 0 then []
    else
      var key := cfg[n - 1].Key();
      Added(bs, cfg, ids, n - 1)
      + if HasKey(bs, key) || key in KeysBelow(cfg, n - 1) then [] else [NewNode(cfg[n - 1], ids[n - 1])]
  }

  // ---------------------------------------------------------------- cleaning is filtering

  function Filter(bs: seq<Backend>): seq<Backend> {
    if bs == [] then []
    else Filter(bs[..|bs| - 1]) + if Drained(bs[|bs| - 1]) then [] else [bs[|bs| - 1]]
  }

  lemma {:induction false} WithoutAbsent(bs: seq<Backend>, host: string, port: nat)
    requires !HasKey(bs, (host, port))
    ensures Without(bs, host, port) == bs
  {
    if bs != [] {
      var front := bs[..|bs| - 1];
      assert forall i :: 0 <= i < |front| ==> front[i] == bs[i];
      WithoutAbsent(front, host, port);
    }
  }

  lemma {:induction false} WithoutConcat(a: seq<Backend>, b: seq<Backend>, host: string, port: nat)
    ensures Without(a + b, host, port) == Without(a, host, port) + Without(b, host, port)
    decreases |b|
  {
    if b == [] {
      assert a + b == a;
    } else {
      assert (a + b)[..|a + b| - 1] == a + b[..|b| - 1];
      WithoutConcat(a, b[..|b| - 1], host, port);
    }
  }

  lemma {:induction false} FilterHas(bs: seq<Backend>, key: Key)
    requires HasKey(Filter(bs), key)
    ensures HasKey(bs, key)
  {
    if bs != [] {
      var front, last := bs[..|bs| - 1], bs[|bs| - 1];
      if last.Key() != key {
        var i :| 0 <= i < |Filter(bs)| && Filter(bs)[i].Key() == key;
        assert Filter(front)[i].Key() == key;
        FilterHas(front, key);
        var j :| 0 <= j < |front| && front[j].Key() == key;
        assert bs[j].Key() == key;
      } else {
        assert bs[|bs| - 1].Key() == key;
      }
    }
  }

  lemma {:induction false} CleanBelowIs(bs: seq<Backend>, n: nat)
    requires UniqueKeys(bs) && n <= |bs|
    ensures CleanBelow(bs, bs, n) == Filter(bs[..n]) + bs[n..]
    decreases n
  {
    hide HasKey, UniqueKeys, Without, Filter, Drained;
    if n == 0 {
      NothingFiltered(bs);
    } else {
      CleanBelowIs(bs, n - 1);
      CleanOne(bs, n);
    }
  }

  lemma NothingFiltered(bs: seq<Backend>)
    ensures Filter(bs[..0]) + bs[0..] == bs
  {
  }

  /** One node of the snapshot: it goes if it is drained, and nothing else does. */
  lemma CleanOne(bs: seq<Backend>, n: nat)
    requires UniqueKeys(bs) && 0 < n <= |bs|
    ensures var was, b := Filter(bs[..n - 1]) + bs[n - 1..], bs[n - 1];
      (if Drained(b) then Without(was, b.host, b.port) else was) == Filter(bs[..n]) + bs[n..]
  {
    hide HasKey, UniqueKeys, Without, Filter, Drained;
    var b, front, back := bs[n - 1], Filter(bs[..n - 1]), bs[n..];
    FilterSnoc(bs, n);
    assert bs[n - 1..] == [b] + back;
    if Drained(b) {
      OnlyHere(bs, n);
      WithoutOne(front, b, back);
      assert front + [] == front;
    } else {
      assert front + ([b] + back) == (front + [b]) + back;
    }
  }

  lemma FilterSnoc(bs: seq<Backend>, n: nat)
    requires 0 < n <= |bs|
    ensures Filter(bs[..n]) == Filter(bs[..n - 1]) + if Drained(bs[n - 1]) then [] else [bs[n - 1]]
  {
    assert bs[..n][..n - 1] == bs[..n - 1];
  }

  lemma OnlyHere(bs: seq<Backend>, n: nat)
    requires UniqueKeys(bs) && 0 < n <= |bs|
    ensures !HasKey(Filter(bs[..n - 1]), bs[n - 1].Key()) && !HasKey(bs[n..], bs[n - 1].Key())
  {
    hide Filter;
    if HasKey(Filter(bs[..n - 1]), bs[n - 1].Key()) {
      FilterHas(bs[..n - 1], bs[n - 1].Key());
    }
  }

  lemma WithoutOne(front: seq<Backend>, b: Backend, back: seq<Backend>)
    requires !HasKey(front, b.Key()) && !HasKey(back, b.Key())
    ensures Without(front + ([b] + back), b.host, b.port) == front + back
  {
    hide Without, HasKey;
    WithoutSelf(b);
    WithoutConcat(front, [b] + back, b.host, b.port);
    WithoutConcat([b], back, b.host, b.port);
    WithoutAbsent(front, b.host, b.port);
    WithoutAbsent(back, b.host, b.port);
    assert [] + back == back;
  }

  lemma WithoutSelf(b: Backend)
    ensures Without([b], b.host, b.port) == []
  {
    assert [b][..0] == [];
  }

  lemma CleanedIsFilter(bs: seq<Backend>)
    requires UniqueKeys(bs)
    ensures Cleaned(bs) == Filter(bs)
  {
    CleanBelowIs(bs, |bs|);
    assert bs[..|bs|] == bs;
  }

  lemma {:induction false} FilterConcat(a: seq<Backend>, b: seq<Backend>)
    ensures Filter(a + b) == Filter(a) + Filter(b)
    decreases |b|
  {
    if b == [] {
      assert a + b == a;
    } else {
      assert (a + b)[..|a + b| - 1] == a + b[..|b| - 1];
      FilterConcat(a, b[..|b| - 1]);
    }
  }

  lemma {:induction false} FilterNone(bs: seq<Backend>)
    requires forall i :: 0 <= i < |bs| ==> !Drained(bs[i])
    ensures Filter(bs) == bs
  {
    if bs != [] {
      FilterNone(bs[..|bs| - 1]);
    }
  }

  // ---------------------------------------------------------------- admitting in closed form

  function Restore(b: Backend, keys: set<Key>): Backend {
    if b.Key() in keys && b.health.Draining? then b.(health := Healthy) else b
  }

  function RestoreAll(bs: seq<Backend>, keys: set<Key>): (r: seq<Backend>)
    ensures |r| == |bs|
  {
    seq(|bs|, i requires 0 <= i < |bs| => Restore(bs[i], keys))
  }

  lemma {:induction false} AddedKeys(bs: seq<Backend>, cfg: seq<Entry>, ids: seq<NodeId>, n: nat)
    requires n <= |cfg| == |ids|
    ensures var a := Added(bs, cfg, ids, n);
      && UniqueKeys(a)
      && (forall i :: 0 <= i < |a| ==> !HasKey(bs, a[i].Key()) && a[i].Key() in KeysBelow(cfg, n)
                                       && a[i].health.Healthy? && a[i].active == 0)
      && (forall i :: 0 <= i < n && !HasKey(bs, cfg[i].Key()) ==> HasKey(a, cfg[i].Key()))
    decreases n
  {
    hide HasKey;
    if n > 0 {
      AddedKeys(bs, cfg, ids, n - 1);
      var key, a, a' := cfg[n - 1].Key(), Added(bs, cfg, ids, n - 1), Added(bs, cfg, ids, n);
      forall k | HasKey(a, k) ensures HasKey(a', k) { HasKeyGrows(a, a', k); }
      if !HasKey(bs, key) && key !in KeysBelow(cfg, n - 1) {
        HasKeyAt(a', |a|);
      } else if !HasKey(bs, key) {
        var i :| 0 <= i < n - 1 && cfg[i].Key() == key;
      }
    }
  }

  lemma HasKeyAt(bs: seq<Backend>, i: nat)
    requires i < |bs|
    ensures HasKey(bs, bs[i].Key())
  {
  }

  lemma HasKeyGrows(a: seq<Backend>, b: seq<Backend>, key: Key)
    requires a <= b && HasKey(a, key)
    ensures HasKey(b, key)
  {
    var i :| 0 <= i < |a| && a[i].Key() == key;
    assert b[i].Key() == key;
  }

  /** The new part is healthy, shares no key with the old one, and has the keys that it lacks. */
  ghost predicate Apart(bs: seq<Backend>, a: seq<Backend>, keys: set<Key>) {
    && UniqueKeys(a)
    && (forall i :: 0 <= i < |a| ==> !HasKey(bs, a[i].Key()) && a[i].Key() in keys && a[i].health.Healthy?)
    && (forall key :: key in keys && !HasKey(bs, key) ==> HasKey(a, key))
  }

  lemma AddedIsApart(bs: seq<Backend>, cfg: seq<Entry>, ids: seq<NodeId>, n: nat)
    requires n <= |cfg| == |ids|
    ensures Apart(bs, Added(bs, cfg, ids, n), KeysBelow(cfg, n))
  {
    hide HasKey, UniqueKeys, Added;
    AddedKeys(bs, cfg, ids, n);
  }

  lemma {:induction false} AdmitBelowIs(bs: seq<Backend>, cfg: seq<Entry>, ids: seq<NodeId>, n: nat)
    requires UniqueKeys(bs) && n <= |cfg| == |ids|
    ensures AdmitBelow(bs, cfg, ids, n) == RestoreAll(bs, KeysBelow(cfg, n)) + Added(bs, cfg, ids, n)
    decreases n
  {
    hide HasKey, UniqueKeys, Apart, Admit, RestoreAll, Added, KeysBelow, NewNode, More;
    if n == 0 {
      NothingYet(bs, cfg, ids);
    } else {
      AdmitBelowIs(bs, cfg, ids, n - 1);
      AddedIsApart(bs, cfg, ids, n - 1);
      AddedSnoc(bs, cfg, ids, n);
      AdmitOne(bs, Added(bs, cfg, ids, n - 1), KeysBelow(cfg, n - 1), cfg[n - 1], ids[n - 1]);
    }
  }

  lemma NothingYet(bs: seq<Backend>, cfg: seq<Entry>, ids: seq<NodeId>)
    requires |cfg| == |ids|
    ensures RestoreAll(bs, KeysBelow(cfg, 0)) + Added(bs, cfg, ids, 0) == bs
  {
    assert forall i :: 0 <= i < |bs| ==> RestoreAll(bs, {})[i] == bs[i];
  }

  lemma AddedSnoc(bs: seq<Backend>, cfg: seq<Entry>, ids: seq<NodeId>, n: nat)
    requires 0 < n <= |cfg| == |ids|
    ensures KeysBelow(cfg, n) == KeysBelow(cfg, n - 1) + {cfg[n - 1].Key()}
    ensures Added(bs, cfg, ids, n) == Added(bs, cfg, ids, n - 1)
      + More(bs, KeysBelow(cfg, n - 1), cfg[n - 1], ids[n - 1])
  {
  }

  ghost function More(bs: seq<Backend>, keys: set<Key>, e: Entry, id: NodeId): seq<Backend> {
    if HasKey(bs, e.Key()) || e.Key() in keys then [] else [NewNode(e, id)]
  }

  /** One more entry: the restored part and the new part stay apart. */
  lemma AdmitOne(bs: seq<Backend>, a: seq<Backend>, keys: set<Key>, e: Entry, id: NodeId)
    requires UniqueKeys(bs) && Apart(bs, a, keys)
    ensures Admit(RestoreAll(bs, keys) + a, e, id)
      == RestoreAll(bs, keys + {e.Key()}) + (a + More(bs, keys, e, id))
  {
    hide HasKey, UniqueKeys, Admit, RestoreAll, NewNode, Apart;
    assert a + [] == a;
    if HasKey(bs, e.Key()) {
      AdmitOld(bs, a, keys, e, id);
    } else {
      RestoreOthers(bs, keys, e.Key());
      if e.Key() in keys {
        AdmitAgain(bs, a, keys, e, id);
      } else {
        AdmitNew(bs, a, keys, e, id);
        assert (RestoreAll(bs, keys) + a) + [NewNode(e, id)] == RestoreAll(bs, keys) + (a + [NewNode(e, id)]);
      }
    }
  }

  lemma AdmitOld(bs: seq<Backend>, a: seq<Backend>, keys: set<Key>, e: Entry, id: NodeId)
    requires UniqueKeys(bs) && HasKey(bs, e.Key())
    ensures Admit(RestoreAll(bs, keys) + a, e, id) == RestoreAll(bs, keys + {e.Key()}) + a
  {
    var was, now := RestoreAll(bs, keys), RestoreAll(bs, keys + {e.Key()});
    var i :| 0 <= i < |bs| && bs[i].Key() == e.Key();
    assert forall k :: 0 <= k < |bs| ==> was[k].Key() == bs[k].Key();
    assert (was + a)[i].Key() == e.Key() && Find(was + a, e.host, e.port) == i;
    RestoreAt(bs, keys, i);
    hide RestoreAll, UniqueKeys;
    assert (was + a)[i] == was[i];
    assert (was + a)[i := now[i]] == was[i := now[i]] + a;
    assert (was + a)[i := was[i]] == was + a;
  }

  lemma RestoreAt(bs: seq<Backend>, keys: set<Key>, i: nat)
    requires UniqueKeys(bs) && i < |bs|
    ensures var was, now := RestoreAll(bs, keys), RestoreAll(bs, keys + {bs[i].Key()});
      && now == was[i := now[i]]
      && now[i] == if was[i].health.Draining? then was[i].(health := Healthy) else was[i]
  {
  }

  lemma RestoreOthers(bs: seq<Backend>, keys: set<Key>, key: Key)
    requires !HasKey(bs, key)
    ensures RestoreAll(bs, keys + {key}) == RestoreAll(bs, keys)
  {
  }

  lemma AdmitAgain(bs: seq<Backend>, a: seq<Backend>, keys: set<Key>, e: Entry, id: NodeId)
    requires !HasKey(bs, e.Key()) && e.Key() in keys && Apart(bs, a, keys)
    ensures Admit(RestoreAll(bs, keys) + a, e, id) == RestoreAll(bs, keys) + a
  {
    var was := RestoreAll(bs, keys);
    assert forall k :: 0 <= k < |bs| ==> was[k].Key() == bs[k].Key() != e.Key();
    assert HasKey(a, e.Key());
    var i :| 0 <= i < |a| && a[i].Key() == e.Key();
    assert (was + a)[|was| + i].Key() == e.Key();
    var k := Find(was + a, e.host, e.port);
    assert (was + a)[k] == a[k - |was|];
  }

  lemma AdmitNew(bs: seq<Backend>, a: seq<Backend>, keys: set<Key>, e: Entry, id: NodeId)
    requires !HasKey(bs, e.Key()) && e.Key() !in keys && Apart(bs, a, keys)
    ensures Admit(RestoreAll(bs, keys) + a, e, id) == (RestoreAll(bs, keys) + a) + [NewNode(e, id)]
  {
    var was := RestoreAll(bs, keys);
    assert forall k :: 0 <= k < |bs| ==> was[k].Key() == bs[k].Key() != e.Key();
    assert forall k :: 0 <= k < |was + a| ==> (was + a)[k].Key() != e.Key();
  }

  // ---------------------------------------------------------------- the closed form

  lemma {:induction false} SettledIs(bs: seq<Backend>, keys: set<Key>)
    ensures Filter(RestoreAll(MarkAll(bs, keys), keys)) == Settled(bs, keys)
  {
    if bs != [] {
      var n := |bs| - 1;
      SettledIs(bs[..n], keys);
      assert RestoreAll(MarkAll(bs, keys), keys)[..n] == RestoreAll(MarkAll(bs[..n], keys), keys);
    }
  }

  lemma {:induction false} SameAdded(bs: seq<Backend>, bs': seq<Backend>, cfg: seq<Entry>, ids: seq<NodeId>, n: nat)
    requires n <= |cfg| == |ids|
    requires forall key :: HasKey(bs, key) <==> HasKey(bs', key)
    ensures Added(bs, cfg, ids, n) == Added(bs', cfg, ids, n)
    decreases n
  {
    if n > 0 {
      SameAdded(bs, bs', cfg, ids, n - 1);
    }
  }

  lemma MarkKeepsKeys(bs: seq<Backend>, keys: set<Key>)
    ensures forall key :: HasKey(bs, key) <==> HasKey(MarkAll(bs, keys), key)
    ensures UniqueKeys(bs) ==> UniqueKeys(MarkAll(bs, keys))
  {
    var m := MarkAll(bs, keys);
    assert forall i :: 0 <= i < |bs| ==> m[i].Key() == bs[i].Key();
  }

  lemma JoinedKeysAreUnique(bs: seq<Backend>, keys: set<Key>, a: seq<Backend>)
    requires UniqueKeys(bs) && UniqueKeys(a)
    requires forall i :: 0 <= i < |a| ==> !HasKey(bs, a[i].Key())
    ensures UniqueKeys(RestoreAll(bs, keys) + a)
  {
    var all := RestoreAll(bs, keys) + a;
    assert forall i :: 0 <= i < |bs| ==> all[i].Key() == bs[i].Key();
  }

  /** The three loops together: the old nodes settle in their order, then come the new ones. */
  lemma ReconciledIs(bs: seq<Backend>, cfg: seq<Entry>, ids: seq<NodeId>)
    requires UniqueKeys(bs) && |cfg| == |ids|
    ensures Reconciled(bs, cfg, ids) == Settled(bs, Keys(cfg)) + Added(bs, cfg, ids, |cfg|)
  {
    hide UniqueKeys, HasKey, Cleaned, Filter, MarkAll, RestoreAll, Settled, KeysBelow;
    var keys := Keys(cfg);
    var m, a := MarkAll(bs, keys), Added(bs, cfg, ids, |cfg|);
    MarkKeepsKeys(bs, keys);
    SameAdded(bs, m, cfg, ids, |cfg|);
    AddedKeys(m, cfg, ids, |cfg|);
    AdmitBelowIs(m, cfg, ids, |cfg|);
    JoinedKeysAreUnique(m, keys, a);
    CleanedIsFilter(RestoreAll(m, keys) + a);
    FilterConcat(RestoreAll(m, keys), a);
    FilterNone(a);
    SettledIs(bs, keys);
  }

  // ---------------------------------------------------------------- what follows

  /** Where a settled node comes from. */
  lemma {:induction false} SettledFrom(bs: seq<Backend>, keys: set<Key>, c: Backend) returns (b: Backend)
    requires c in Settled(bs, keys)
    ensures b in bs && Settle(b, keys) == [c]
  {
    var n := |bs| - 1;
    if c in Settled(bs[..n], keys) {
      b := SettledFrom(bs[..n], keys, c);
    } else {
      b := bs[n];
    }
  }

  /** Everything worth keeping is kept. */
  lemma {:induction false} SettledHas(bs: seq<Backend>, keys: set<Key>, b: Backend)
    requires b in bs && Settle(b, keys) != []
    ensures Settle(b, keys)[0] in Settled(bs, keys)
  {
    hide Settle;
    var n := |bs| - 1;
    if b == bs[n] {
      assert Settled(bs, keys)[|Settled(bs[..n], keys)|] == Settle(b, keys)[0];
    } else {
      assert b in bs[..n];
      SettledHas(bs[..n], keys, b);
    }
  }

  lemma {:induction false} SettledIsUnique(bs: seq<Backend>, keys: set<Key>)
    requires UniqueKeys(bs)
    ensures UniqueKeys(Settled(bs, keys))
  {
    if bs != [] {
      var n := |bs| - 1;
      hide Settle;
      var front, last := Settled(bs[..n], keys), Settle(bs[n], keys);
      SettledIsUnique(bs[..n], keys);
      SettleLength(bs[n], keys);
      if last != [] {
        SettleKeeps(bs[n], keys);
        forall k | 0 <= k < |front|
          ensures front[k].Key() != last[0].Key()
        {
          var b := SettledFrom(bs[..n], keys, front[k]);
          SettleKeeps(b, keys);
        }
      }
    }
  }

  lemma SettleLength(b: Backend, keys: set<Key>)
    ensures |Settle(b, keys)| <= 1
  {
  }

  /** A node that stays is the same node, with the same weight and the same connections. */
  lemma SettleKeeps(b: Backend, keys: set<Key>)
    requires Settle(b, keys) != []
    ensures var c := Settle(b, keys)[0];
      && c == b.(health := c.health)
      && (b.Key() in keys ==> c.health == if b.health.Draining? then Healthy else b.health)
      && (b.Key() !in keys ==> c.health.Draining? && c.active > 0)
  {
  }

  lemma {:induction false} AddedFrom(bs: seq<Backend>, cfg: seq<Entry>, ids: seq<NodeId>, n: nat, c: Backend)
      returns (i: nat)
    requires n <= |cfg| == |ids| && c in Added(bs, cfg, ids, n)
    ensures i < n && c == NewNode(cfg[i], ids[i]) && !HasKey(bs, c.Key())
    ensures forall j :: 0 <= j < i ==> cfg[j].Key() != c.Key()
    decreases n
  {
    if c in Added(bs, cfg, ids, n - 1) {
      i := AddedFrom(bs, cfg, ids, n - 1, c);
    } else {
      i := n - 1;
    }
  }

  /** Where the nodes of a reconciled pool come from: an old node is the same but for its health,
      which only leaves draining; a new one is healthy and idle, with the host, port and weight of
      the first entry for its key, a weight of zero counting as one. */
  lemma NodesComeFrom(bs: seq<Backend>, cfg: seq<Entry>, ids: seq<NodeId>, c: Backend)
    requires UniqueKeys(bs) && |cfg| == |ids| && c in Reconciled(bs, cfg, ids)
    ensures
      || (exists b :: b in bs && c == b.(health := c.health)
            && (b.Key() in Keys(cfg) && !b.health.Draining? ==> c.health == b.health)
            && (b.Key() in Keys(cfg) && b.health.Draining? ==> c.health.Healthy?))
      || (exists i :: 0 <= i < |cfg| && c.id == ids[i] && c.host == cfg[i].host && c.port == cfg[i].port
            && c.weight == (if cfg[i].weight == 0 then 1 else cfg[i].weight) && c.health.Healthy? && c.active == 0
            && forall j :: 0 <= j < i ==> cfg[j].Key() != c.Key())
  {
    hide Reconciled, UniqueKeys, HasKey, Settle, Settled, Added, KeysBelow;
    ReconciledIs(bs, cfg, ids);
    if c in Settled(bs, Keys(cfg)) {
      var b := SettledFrom(bs, Keys(cfg), c);
      SettleKeeps(b, Keys(cfg));
    } else {
      var i := AddedFrom(bs, cfg, ids, |cfg|, c);
    }
  }

  /** Every configured backend is there and not draining; every other node that remains is
      draining and has connections; and no key occurs twice. */
  lemma ReconcileIsRight(bs: seq<Backend>, cfg: seq<Entry>, ids: seq<NodeId>)
    requires UniqueKeys(bs) && |cfg| == |ids|
    ensures var r := Reconciled(bs, cfg, ids);
      && UniqueKeys(r)
      && (forall e :: e in cfg ==> HasKey(r, e.Key()))
      && (forall c :: c in r && c.Key() in Keys(cfg) ==> !c.health.Draining?)
      && (forall c :: c in r && c.Key() !in Keys(cfg) ==> c.health.Draining? && c.active > 0)
  {
    hide Reconciled, UniqueKeys, HasKey, Settle, Settled, Added, KeysBelow;
    var keys, t, a := Keys(cfg), Settled(bs, Keys(cfg)), Added(bs, cfg, ids, |cfg|);
    ReconciledIs(bs, cfg, ids);
    AddedKeys(bs, cfg, ids, |cfg|);
    forall c | c in t
      ensures HasKey(bs, c.Key())
      ensures if c.Key() in keys then !c.health.Draining? else c.health.Draining? && c.active > 0
    {
      var b := SettledFrom(bs, keys, c);
      SettleKeeps(b, keys);
      KeyOfMember(bs, b);
    }
    SettledIsUnique(bs, keys);
    UniqueJoin(bs, t, a);
    forall e | e in cfg
      ensures HasKey(t + a, e.Key())
    {
      if HasKey(bs, e.Key()) {
        ConfiguredStays(bs, cfg, e);
        HasKeyGrows(t, t + a, e.Key());
      } else {
        KeyOnRight(t, a, e.Key());
      }
    }
  }

  lemma KeyOfMember(bs: seq<Backend>, b: Backend)
    requires b in bs
    ensures HasKey(bs, b.Key())
  {
    var i :| 0 <= i < |bs| && bs[i] == b;
    HasKeyAt(bs, i);
  }

  lemma KeyOnRight(t: seq<Backend>, a: seq<Backend>, key: Key)
    requires HasKey(a, key)
    ensures HasKey(t + a, key)
  {
    var i :| 0 <= i < |a| && a[i].Key() == key;
    assert (t + a)[|t| + i].Key() == key;
  }

  lemma UniqueJoin(bs: seq<Backend>, t: seq<Backend>, a: seq<Backend>)
    requires UniqueKeys(t) && UniqueKeys(a)
    requires forall c :: c in t ==> HasKey(bs, c.Key())
    requires forall i :: 0 <= i < |a| ==> !HasKey(bs, a[i].Key())
    ensures UniqueKeys(t + a)
  {
    hide HasKey;
    forall i, j | 0 <= i < j < |t + a|
      ensures (t + a)[i].Key() != (t + a)[j].Key()
    {
      if i < |t| <= j {
        assert t[i] in t && !HasKey(bs, a[j - |t|].Key());
      }
    }
  }

  lemma ConfiguredStays(bs: seq<Backend>, cfg: seq<Entry>, e: Entry)
    requires e in cfg && HasKey(bs, e.Key())
    ensures HasKey(Settled(bs, Keys(cfg)), e.Key())
  {
    var i :| 0 <= i < |bs| && bs[i].Key() == e.Key();
    var b := bs[i];
    assert Settle(b, Keys(cfg)) != [];
    SettledHas(bs, Keys(cfg), b);
    SettleKeeps(b, Keys(cfg));
    hide HasKey, Settle, Settled;
    KeyOfMember(Settled(bs, Keys(cfg)), Settle(b, Keys(cfg))[0]);
  }

  // ---------------------------------------------------------------- again

  lemma {:induction false} SettledStays(bs: seq<Backend>, keys: set<Key>)
    requires forall c :: c in bs ==> Settle(c, keys) == [c]
    ensures Settled(bs, keys) == bs
  {
    if bs != [] {
      var front, last := bs[..|bs| - 1], bs[|bs| - 1];
      assert bs == front + [last] && Settled(bs, keys) == Settled(front, keys) + Settle(last, keys);
      assert last in bs;
      hide Settle, Settled;
      forall c | c in front
        ensures Settle(c, keys) == [c]
      {
        assert c in bs;
      }
      SettledStays(front, keys);
    }
  }

  lemma {:induction false} NothingAdded(bs: seq<Backend>, cfg: seq<Entry>, ids: seq<NodeId>, n: nat)
    requires n <= |cfg| == |ids| && forall e :: e in cfg ==> HasKey(bs, e.Key())
    ensures Added(bs, cfg, ids, n) == []
    decreases n
  {
    if n > 0 {
      NothingAdded(bs, cfg, ids, n - 1);
    }
  }

  /** Applying the same configuration again changes nothing. */
  lemma ReconcileIsIdempotent(bs: seq<Backend>, cfg: seq<Entry>, ids: seq<NodeId>, ids': seq<NodeId>)
    requires UniqueKeys(bs) && |cfg| == |ids| == |ids'|
    ensures Reconciled(Reconciled(bs, cfg, ids), cfg, ids') == Reconciled(bs, cfg, ids)
  {
    hide Reconciled, UniqueKeys, HasKey, KeysBelow;
    var r := Reconciled(bs, cfg, ids);
    ReconcileIsRight(bs, cfg, ids);
    ReconciledIs(r, cfg, ids');
    assert forall c :: c in r ==> Settle(c, Keys(cfg)) == [c];
    SettledStays(r, Keys(cfg));
    NothingAdded(r, cfg, ids', |cfg|);
  }

  // ---------------------------------------------------------------- every run

  /** What happens to a pool: a configuration, a periodic cleanup, a backend added at start-up, or
      a node's health and connection count changing. */
  datatype PoolStep =
    | Configure(cfg: seq<Entry>, ids: seq<NodeId>)
    | Cleanup
    | Start(e: Entry, id: NodeId)
    | Change(i: nat, health: Health, active: nat)

  function PoolApply(bs: seq<Backend>, step: PoolStep): seq<Backend> {
    match step
    case Configure(cfg, ids) => if |cfg| == |ids| then Reconciled(bs, cfg, ids) else bs
    case Cleanup => Cleaned(bs)
    case Start(e, id) => if Find(bs, e.host, e.port) < |bs| then bs else bs + [NewNode(e, id)]
    case Change(i, health, active) => if i < |bs| then bs[i := bs[i].(health := health, active := active)] else bs
  }

  function PoolRun(bs: seq<Backend>, steps: seq<PoolStep>): seq<Backend>
    decreases |steps|
  {
    if steps == [] then bs else PoolRun(PoolApply(bs, steps[0]), steps[1..])
  }

  lemma {:induction false} FilterIsUnique(bs: seq<Backend>)
    requires UniqueKeys(bs)
    ensures UniqueKeys(Filter(bs))
  {
    if bs != [] {
      var n := |bs| - 1;
      FilterIsUnique(bs[..n]);
      forall k | 0 <= k < |Filter(bs[..n])|
        ensures Filter(bs[..n])[k].Key() != bs[n].Key()
      {
        FilterHas(bs[..n], Filter(bs[..n])[k].Key());
      }
    }
  }

  /** Two nodes of a pool that started empty never have the same host and port. */
  lemma {:induction false} KeysStayUnique(bs: seq<Backend>, steps: seq<PoolStep>)
    requires UniqueKeys(bs)
    ensures UniqueKeys(PoolRun(bs, steps))
    decreases |steps|
  {
    if steps != [] {
      assert UniqueKeys(PoolApply(bs, steps[0])) by {
        match steps[0]
        case Configure(cfg, ids) => if |cfg| == |ids| { ReconcileIsRight(bs, cfg, ids); }
        case Cleanup => CleanedIsFilter(bs); FilterIsUnique(bs);
        case Start(e, id) =>
        case Change(i, health, active) =>
      }
      KeysStayUnique(PoolApply(bs, steps[0]), steps[1..]);
    }
  }

  /** A periodic cleanup drops the drained nodes, and nothing else. */
  lemma CleanupDropsOnlyDrained(bs: seq<Backend>, b: Backend)
    requires UniqueKeys(bs)
    ensures b in Cleaned(bs) <==> b in bs && !Drained(b)
  {
    CleanedIsFilter(bs);
    FilterKeeps(bs, b);
  }

  lemma {:induction false} FilterKeeps(bs: seq<Backend>, b: Backend)
    ensures b in Filter(bs) <==> b in bs && !Drained(b)
  {
    if bs != [] {
      FilterKeeps(bs[..|bs| - 1], b);
      assert bs == bs[..|bs| - 1] + [bs[|bs| - 1]];
    }
  }
}
