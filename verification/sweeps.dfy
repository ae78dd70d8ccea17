/** The periodic sweeps as they run: take a snapshot of descriptors, then close them one by
    one, although closing one may remove another one of the snapshot. */
module Sweeps {
  import opened Collections
  import opened Lifecycle
  import opened LifecycleInvariants
  import opened LifecycleClosing
  import opened LifecycleSweeps
  import opened ProxyTables
  import opened EventHandlers

  /** The descriptors of open connections that have been stalled for too long. */
  ghost predicate Stalled(s: State, f: Fd, now: Time, timeout: Time) {
    && f in s.pressure && now - s.pressure[f] >= timeout
    && f in s.conns && !s.conns[f].phase.Closed?
  }

  /** It, or the connection it is paired with, has been stalled for too long. */
  ghost predicate StalledPair(s: State, f: Fd, now: Time, timeout: Time)
    requires f in s.conns
  {
    || Stalled(s, f, now, timeout)
    || (s.conns[f].peer.Some? && Stalled(s, s.conns[f].peer.value, now, timeout))
  }

  method StalledDescriptors(p: Tables, now: Time, timeout: Time) returns (fds: seq<Fd>)
    ensures forall f :: f in fds <==> Stalled(p.View(), f, now, timeout)
  {
    fds := [];
    var todo := p.pressure.Keys;
    while todo != {}
      invariant todo <= p.pressure.Keys
      invariant forall f :: f in fds <==> f !in todo && Stalled(p.View(), f, now, timeout)
      decreases |todo|
    {
      var f :| f in todo;
      if now - p.pressure[f] >= timeout && f in p.conns && !p.conns[f].phase.Closed? {
        fds := fds + [f];
      }
      todo := todo - {f};
    }
  }

  method OpenDescriptors(p: Tables) returns (fds: seq<Fd>)
    ensures forall f :: f in fds <==> f in p.conns && !p.conns[f].phase.Closed?
  {
    fds := [];
    var todo := p.conns.Keys;
    while todo != {}
      invariant todo <= p.conns.Keys
      invariant forall f :: f in fds <==> f !in todo && f in p.conns && !p.conns[f].phase.Closed?
      decreases |todo|
    {
      var f :| f in todo;
      if !p.conns[f].phase.Closed? {
        fds := fds + [f];
      }
      todo := todo - {f};
    }
  }

  method CloseEach(p: Tables, fds: seq<Fd>)
    requires Inv(p.View(), 0)
    modifies p
    ensures Inv(p.View(), 0) && p.conns.Keys <= old(p.conns.Keys)
    ensures forall f :: f in fds ==> f !in p.conns
  {
    hide Inv, Close;
    var i := 0;
    while i < |fds|
      invariant i <= |fds| && Inv(p.View(), 0)
      invariant p.conns.Keys <= old(p.conns.Keys)
      invariant forall k :: 0 <= k < i ==> fds[k] !in p.conns
    {
      ghost var s := p.View();
      InvGivesPeers(s);
      p.CloseConnection(fds[i]);
      CloseIsClean(s, fds[i]);
      i := i + 1;
    }
  }

  /** `force_close_all_connections`: nothing is left, and every node count is zero. */
  method ForceCloseAll(p: Tables)
    requires Inv(p.View(), 0)
    modifies p
    ensures Inv(p.View(), 0)
    ensures p.conns == map[] && p.nodeOf == map[] && p.clientOf == map[] && p.used == 0
    ensures forall id :: id in p.nodes ==> p.nodes[id].active == 0
  {
    hide Inv;
    NoneIsClosed(p.View());
    var fds := OpenDescriptors(p);
    CloseEach(p, fds);
    assert p.conns.Keys == {};
    EmptyTable(p.View());
  }

  lemma NoneIsClosed(s: State)
    requires Inv(s, 0)
    ensures forall f :: f in s.conns ==> !s.conns[f].phase.Closed?
  {
    forall f | f in s.conns
      ensures !s.conns[f].phase.Closed?
    {
      hide Linked, Sound;
      SoundAt(s, f);
    }
  }

  /** After a close the descriptor is in neither table, and nothing new is in either. */
  lemma CloseIsClean(s: State, f: Fd)
    requires Inv(s, 0)
    ensures var t := Close(s, f);
      && Inv(t, 0) && f !in t.conns
      && (f in s.conns ==> f !in t.pressure)
      && t.conns.Keys <= s.conns.Keys && t.pressure.Keys <= s.pressure.Keys
      && (forall g :: g in s.conns && g !in t.conns ==> g !in t.pressure && (g == f || s.conns[g].peer == Some(f)))
      && (forall g :: g in t.conns ==> t.conns[g] == s.conns[g])
  {
    hide Linked, Sound, RetriesRecorded, Counted, Gauged, Budgeted, Close;
    CloseKeepsInv(s, f);
    CloseRemovesPair(s, f);
    if f in s.conns {
      PeerFacts(s, f);
    }
  }

  /** `check_backpressure_timeouts`: without a timeout nothing happens. Otherwise every stalled
      connection is gone, and although the sweep erases tracking entries without lowering the
      gauge, the gauge is still exact. */
  method CheckBackpressureTimeouts(p: Tables, now: Time, timeout: Time)
    requires Inv(p.View(), 0)
    modifies p
    ensures Inv(p.View(), 0) && p.gauge == |p.pressure|
    ensures timeout == 0 ==> p.View() == old(p.View())
    ensures timeout != 0 ==>
      forall f :: Stalled(old(p.View()), f, now, timeout) ==> f !in p.conns && f !in p.pressure
    ensures p.conns.Keys <= old(p.conns.Keys) && p.pressure.Keys <= old(p.pressure.Keys)
    ensures forall f :: f in old(p.conns) && f !in p.conns ==> StalledPair(old(p.View()), f, now, timeout)
  {
    hide Inv, Close;
    if timeout == 0 {
      GaugeIsExact(p.View());
      return;
    }
    var fds := StalledDescriptors(p, now, timeout);
    assert forall k :: 0 <= k < |fds| ==> Stalled(p.View(), fds[k], now, timeout);
    var i := 0;
    while i < |fds|
      invariant i <= |fds| && Inv(p.View(), 0)
      invariant p.conns.Keys <= old(p.conns.Keys) && p.pressure.Keys <= old(p.pressure.Keys)
      invariant forall k :: 0 <= k < i ==> fds[k] !in p.conns && fds[k] !in p.pressure
      invariant forall k :: i <= k < |fds| ==> fds[k] in p.conns || fds[k] !in p.pressure
      invariant forall f :: f in p.conns ==> f in old(p.conns) && p.conns[f] == old(p.conns)[f]
      invariant forall f :: f in old(p.conns) && f !in p.conns ==> StalledPair(old(p.View()), f, now, timeout)
    {
      ghost var s := p.View();
      InvGivesPeers(s);
      p.CloseConnection(fds[i]);
      CloseIsClean(s, fds[i]);
      ghost var t := p.View();
      MinusAbsent(p.pressure, fds[i]);
      p.pressure := p.pressure - {fds[i]};
      assert p.View() == t;
      i := i + 1;
    }
    GaugeIsExact(p.View());
  }

  lemma GaugeIsExact(s: State)
    requires Inv(s, 0)
    ensures s.gauge == |s.pressure|
  {
  }
}
