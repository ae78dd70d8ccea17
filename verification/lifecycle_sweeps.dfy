/** Sweeps close every descriptor of a snapshot, although one close may already have
    removed another descriptor of the same snapshot. */
module LifecycleSweeps {
  import opened Collections
  import opened Lifecycle
  import opened LifecycleInvariants
  import opened LifecycleClosing
  import opened LifecycleRuns
  import opened LifecycleNodes

  /** `force_close_all_connections`, and the request and handshake timeout sweeps. */
  function CloseAll(s: State, fds: seq<Fd>): State
    decreases |fds|
  {
    if fds == [] then s else CloseAll(Close(s, fds[0]), fds[1..])
  }

  /** `check_backpressure_timeouts`: after each close the descriptor is erased from the
      tracking map once more, this time without touching the gauge. */
  function CloseStalled(s: State, fds: seq<Fd>): State
    decreases |fds|
  {
    if fds == [] then s
    else
      var t := Close(s, fds[0]);
      CloseStalled(t.(pressure := t.pressure - {fds[0]}), fds[1..])
  }

  lemma {:induction false} CloseAllRemoves(s: State, fds: seq<Fd>)
    requires Inv(s, 0)
    ensures Inv(CloseAll(s, fds), 0)
    ensures CloseAll(s, fds).conns.Keys <= s.conns.Keys
    ensures forall f :: f in fds ==> f !in CloseAll(s, fds).conns
    ensures CloseAll(s, fds).nodes.Keys == s.nodes.Keys
    decreases |fds|
  {
    if fds != [] {
      hide Inv, Close;
      CloseShrinks(s, fds[0]);
      CloseAllRemoves(Close(s, fds[0]), fds[1..]);
    }
  }

  lemma CloseShrinks(s: State, fd: Fd)
    requires Inv(s, 0)
    ensures var t := Close(s, fd);
      Inv(t, 0) && fd !in t.conns && t.conns.Keys <= s.conns.Keys && t.nodes.Keys == s.nodes.Keys
  {
    hide Linked, Sound, RetriesRecorded, Counted, Gauged, Budgeted, Close;
    CloseKeepsInv(s, fd);
    CloseRemovesPair(s, fd);
    CloseIsAlike(s, fd);
  }

  /** After the forced close, from any reachable state and in any order of the snapshot, no
      connection remains and every node count is zero. */
  lemma ForceCloseEmptiesEverything(start: State, steps: seq<Step>, fds: seq<Fd>)
    requires Fresh(start)
    requires forall f :: f in Run(start, steps).conns ==> f in fds
    ensures var t := CloseAll(Run(start, steps), fds);
      && t.conns == map[] && t.nodeOf == map[] && t.clientOf == map[]
      && (forall id :: id in t.nodes ==> t.nodes[id].active == 0)
      && t.used == 0
  {
    ProxyStaysConsistent(start, steps);
    var s := Run(start, steps);
    hide Run;
    CloseAllRemoves(s, fds);
    var t := CloseAll(s, fds);
    hide CloseAll;
    assert t.conns.Keys == {};
    EmptyTable(t);
  }

  lemma EmptyTable(t: State)
    requires Inv(t, 0) && t.conns.Keys == {}
    ensures t.nodeOf == map[] && t.clientOf == map[] && t.used == 0
    ensures forall id :: id in t.nodes ==> t.nodes[id].active == 0
  {
    assert t.clientOf.Keys == {};
    forall id | id in t.nodes
      ensures t.nodes[id].active == 0
    {
      assert Holders(t, id) == {};
    }
  }

  /** A snapshot is sound when a descriptor that lost its connection is no longer tracked. */
  ghost predicate Untracked(s: State, fds: seq<Fd>) {
    forall f :: f in fds ==> f in s.conns || f !in s.pressure
  }

  /** The backpressure sweep keeps the gauge equal to the number of tracked descriptors. */
  lemma {:induction false} CloseStalledKeepsInv(s: State, fds: seq<Fd>)
    requires Inv(s, 0) && Untracked(s, fds)
    ensures Inv(CloseStalled(s, fds), 0)
    ensures forall f :: f in fds ==> f !in CloseStalled(s, fds).conns && f !in CloseStalled(s, fds).pressure
    ensures CloseStalled(s, fds).conns.Keys <= s.conns.Keys && CloseStalled(s, fds).pressure.Keys <= s.pressure.Keys
    decreases |fds|
  {
    if fds != [] {
      var f := fds[0];
      var t := Close(s, f);
      CloseKeepsInv(s, f);
      CloseRemovesPair(s, f);
      hide Inv, Close;
      assert f !in t.pressure;
      MinusAbsent(t.pressure, f);
      assert t.(pressure := t.pressure - {f}) == t;
      CloseStalledKeepsInv(t, fds[1..]);
    }
  }

  /** From any reachable state the sweep over tracked, open descriptors is exact. */
  lemma StalledSweepKeepsGauge(start: State, steps: seq<Step>, fds: seq<Fd>)
    requires Fresh(start)
    requires forall f :: f in fds ==> f in Run(start, steps).conns
    ensures var t := CloseStalled(Run(start, steps), fds);
      && t.gauge == |t.pressure|
      && (forall f :: f in fds ==> f !in t.conns && f !in t.pressure)
  {
    ProxyStaysConsistent(start, steps);
    hide Run;
    CloseStalledKeepsInv(Run(start, steps), fds);
  }
}
