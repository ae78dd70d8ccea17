/** Closing: what `close_connection` and `close_backend_connection_only` remove, and that
    they keep every invariant. */
module LifecycleClosing {
  import opened Collections
  import opened Lifecycle
  import opened LifecycleInvariants

  // ---------------------------------------------------------------- what is removed

  /** `fd` and the connection it is paired with. */
  ghost function Pair(s: State, fd: Fd): set<Fd> {
    if fd !in s.conns then {}
    else if s.conns[fd].peer.Some? then {fd, s.conns[fd].peer.value}
    else {fd}
  }

  /** What a connection and its peer know of each other. */
  lemma PeerFacts(s: State, fd: Fd)
    requires Linked(s) && Sound(s) && fd in s.conns
    ensures !s.conns[fd].phase.Closed?
    ensures s.conns[fd].peer.Some? ==>
      var p := s.conns[fd].peer.value;
      && p in s.conns && p != fd && !s.conns[p].phase.Closed?
      && s.conns[p].peer == Some(fd)
      && (fd in s.clientOf <==> p !in s.clientOf)
    ensures s.conns[fd].peer.None? ==> fd !in s.clientOf
    ensures s.nodeOf.Keys == s.clientOf.Keys
  {
    assert ConnectionOk(s.conns[fd], fd in s.clientOf);
    if s.conns[fd].peer.Some? {
      var p := s.conns[fd].peer.value;
      assert p in s.conns;
      assert ConnectionOk(s.conns[p], p in s.clientOf);
    }
  }

  lemma UnmapPair(s: State, fd: Fd)
    requires Linked(s) && fd in s.conns
    ensures DropValue(s.clientOf - {fd}, fd) ==
      if s.conns[fd].peer.Some? && fd !in s.clientOf then s.clientOf - {fd} - {s.conns[fd].peer.value}
      else s.clientOf - {fd}
  {
    if s.conns[fd].peer.Some? && fd !in s.clientOf {
      DropOnlyKey(s.clientOf - {fd}, fd, s.conns[fd].peer.value);
    } else {
      DropAbsentValue(s.clientOf - {fd}, fd);
    }
  }

  /** `t` is `s` without the descriptors `gone`, in all six maps. */
  ghost predicate Removed(s: State, t: State, gone: set<Fd>) {
    && t.conns == s.conns - gone
    && t.nodeOf == s.nodeOf - gone
    && t.clientOf == s.clientOf - gone
    && t.connTimes == s.connTimes - gone
    && t.pressure == s.pressure - gone
    && t.retries == s.retries - gone
  }

  lemma CloseAlone(s: State, fd: Fd)
    requires fd in s.conns && !s.conns[fd].phase.Closed? && s.conns[fd].peer.None?
    ensures Removed(s.(clientOf := DropValue(s.clientOf - {fd}, fd)), Close(s, fd), {fd})
  {
    MinusAbsent(DropValue(s.clientOf - {fd}, fd), fd);
  }

  lemma ClosePaired(s: State, fd: Fd, p: Fd)
    requires fd in s.conns && p in s.conns && p != fd && s.conns[fd].peer == Some(p)
    requires !s.conns[fd].phase.Closed? && !s.conns[p].phase.Closed?
    ensures Removed(s.(clientOf := DropValue(s.clientOf - {fd}, fd)), Close(s, fd), {fd, p})
  {
    var m := DropValue(s.clientOf - {fd}, fd);
    MinusAbsent(m, fd);
    MinusTwo(m, fd, p);
    MinusTwo(s.conns, fd, p);
    MinusTwo(s.nodeOf, fd, p);
    MinusTwo(s.connTimes, fd, p);
    MinusTwo(s.pressure, fd, p);
    MinusTwo(s.retries, fd, p);
  }

  /** Dropping a pair from the client map takes the same two keys as the loop over its values. */
  lemma UnmapPairKeys(s: State, fd: Fd)
    requires Linked(s) && Sound(s) && fd in s.conns
    ensures DropValue(s.clientOf - {fd}, fd) - Pair(s, fd) == s.clientOf - Pair(s, fd)
  {
    hide Linked, Sound;
    PeerFacts(s, fd);
    UnmapPair(s, fd);
  }

  /** After `close_connection` exactly the pair is gone, from all six maps. */
  lemma CloseRemovesPair(s: State, fd: Fd)
    requires Linked(s) && Sound(s)
    ensures Removed(s, Close(s, fd), Pair(s, fd))
  {
    if fd in s.conns {
      hide Linked, Sound, Close, DropValue, Removed;
      PeerFacts(s, fd);
      UnmapPairKeys(s, fd);
      if s.conns[fd].peer.Some? {
        ClosePaired(s, fd, s.conns[fd].peer.value);
      } else {
        CloseAlone(s, fd);
      }
      SameRemoval(s, DropValue(s.clientOf - {fd}, fd), Close(s, fd), Pair(s, fd));
    }
  }

  lemma SameRemoval(s: State, clientOf: map<Fd, Fd>, t: State, gone: set<Fd>)
    requires Removed(s.(clientOf := clientOf), t, gone) && clientOf - gone == s.clientOf - gone
    ensures Removed(s, t, gone)
  {
  }

  // ---------------------------------------------------------------- links and streams

  /** Backends and their clients leave together. */
  ghost predicate WholePairs(s: State, gone: set<Fd>) {
    forall b :: b in s.clientOf ==> (b in gone <==> s.clientOf[b] in gone)
  }

  lemma PairIsWhole(s: State, fd: Fd)
    requires Linked(s)
    ensures WholePairs(s, Pair(s, fd))
  {
  }

  lemma RemovalKeepsLinks(s: State, t: State, gone: set<Fd>)
    requires Linked(s) && Removed(s, t, gone) && WholePairs(s, gone)
    ensures Linked(t)
  {
  }

  lemma RemovalKeepsSound(s: State, t: State, gone: set<Fd>)
    requires Sound(s) && Removed(s, t, gone)
    ensures Sound(t)
  {
    hide ConnectionOk;
  }

  lemma RemovalKeepsRecords(s: State, t: State, gone: set<Fd>)
    requires RetriesRecorded(s) && Removed(s, t, gone) && WholePairs(s, gone)
    ensures RetriesRecorded(t)
  {
  }

  lemma RemovalKeepsStreams(s: State, t: State, gone: set<Fd>)
    requires Streams(s) && Removed(s, t, gone) && WholePairs(s, gone)
    ensures Streams(t)
  {
    hide Carried, StreamOk;
  }

  // ---------------------------------------------------------------- counts, gauge and budget

  /** Detaching an established holder lowers exactly its node's count. */
  lemma DetachKeepsCounts(s: State, fd: Fd)
    requires Counted(s) && fd in s.conns
    ensures Counted(Detach(s, fd, s.conns[fd].phase))
  {
    var t := Detach(s, fd, s.conns[fd].phase);
    forall id | id in t.nodes
      ensures t.nodes[id].active == |Holders(t, id)|
    {
      assert Holders(t, id) == Holders(s, id) - {fd};
      assert fd in Holders(s, id) <==> fd in s.nodeOf && s.nodeOf[fd] == id && s.conns[fd].phase.Established?;
    }
  }

  lemma DetachKeepsGauge(s: State, fd: Fd, phase: Phase)
    requires Gauged(s)
    ensures Gauged(Detach(s, fd, phase))
  {
    MinusSize(s.pressure, fd);
  }

  /** Only the phases of the descriptors in `nodeOf` matter to the counts. */
  lemma SamePhasesKeepCounts(s: State, t: State)
    requires Counted(s) && t.nodes == s.nodes && t.nodeOf == s.nodeOf
    requires forall f :: f in s.nodeOf ==>
      (f in t.conns && t.conns[f].phase.Established? <==> f in s.conns && s.conns[f].phase.Established?)
    ensures Counted(t)
  {
    forall id | id in s.nodes
      ensures Holders(t, id) == Holders(s, id)
    {
    }
  }

  lemma DiscardKeepsCounts(s: State, fd: Fd, c: Connection)
    requires Counted(s) && fd !in s.nodeOf
    ensures Counted(Discard(s, fd, c))
  {
    SamePhasesKeepCounts(s, Discard(s, fd, c));
  }

  lemma ForgettingKeepsCounts(s: State, c: Connection)
    requires Counted(s)
    ensures Counted(s.(conns := ForgottenByPeer(s.conns, c)))
  {
    SamePhasesKeepCounts(s, s.(conns := ForgottenByPeer(s.conns, c)));
  }

  /** No clamp fires: a discarded connection's bytes are all in the budget. */
  lemma DiscardKeepsBudget(s: State, fd: Fd, c: Connection)
    requires Budgeted(s, 0) && fd in s.conns && c.accounted == s.conns[fd].accounted && c.Size() == s.conns[fd].Size()
    ensures Budgeted(Discard(s, fd, c), 0)
    ensures c.accounted ==> c.Size() <= s.used
  {
    hide Footprint;
    FootprintWithout(s.conns, fd);
  }

  lemma ForgettingKeepsBudget(s: State, c: Connection)
    requires Budgeted(s, 0)
    ensures Budgeted(s.(conns := ForgottenByPeer(s.conns, c)), 0)
  {
    hide Footprint;
    if c.peer.Some? && c.peer.value in s.conns {
      FootprintUpdate(s.conns, c.peer.value, s.conns[c.peer.value].(peer := None));
    }
  }

  /** The books of a state: node counts, the gauge and the memory budget. */
  ghost predicate Books(s: State) {
    Counted(s) && Gauged(s) && Budgeted(s, 0)
  }

  lemma DetachKeepsBooks(s: State, fd: Fd)
    requires Books(s) && fd in s.conns
    ensures Books(Detach(s, fd, s.conns[fd].phase))
  {
    hide Counted, Gauged;
    DetachKeepsCounts(s, fd);
    DetachKeepsGauge(s, fd, s.conns[fd].phase);
  }

  lemma DiscardKeepsBooks(s: State, fd: Fd, c: Connection)
    requires Books(s) && fd !in s.nodeOf
    requires fd in s.conns && c.accounted == s.conns[fd].accounted && c.Size() == s.conns[fd].Size()
    ensures Books(Discard(s, fd, c))
  {
    hide Counted, Budgeted;
    DiscardKeepsCounts(s, fd, c);
    DiscardKeepsBudget(s, fd, c);
  }

  lemma ForgettingKeepsBooks(s: State, c: Connection)
    requires Books(s)
    ensures Books(s.(conns := ForgottenByPeer(s.conns, c)))
  {
    hide Counted, Budgeted;
    ForgettingKeepsCounts(s, c);
    ForgettingKeepsBudget(s, c);
  }

  /** `close_connection` keeps the books in every state, linked or not. */
  lemma CloseKeepsBooks(s: State, fd: Fd)
    requires Books(s)
    requires fd in s.conns ==> s.conns[fd].peer != Some(fd)
    requires fd in s.conns && s.conns[fd].peer.Some? && s.conns[fd].peer.value in s.conns ==>
      !s.conns[s.conns[fd].peer.value].phase.Closed?
    ensures Books(Close(s, fd))
  {
    if fd in s.conns {
      hide Books;
      var c := s.conns[fd];
      var t := Detach(s, fd, c.phase);
      DetachKeepsBooks(s, fd);
      if c.phase.Closed? {
        ForgettingKeepsBooks(t, c);
        DiscardKeepsBooks(t.(conns := ForgottenByPeer(t.conns, c)), fd, c);
      } else {
        var u := t.(clientOf := DropValue(t.clientOf, fd));
        ClientMapIsNotInTheBooks(t, u);
        if c.peer.Some? && c.peer.value in u.conns {
          var p := c.peer.value;
          DetachKeepsBooks(u, p);
          DiscardKeepsBooks(Detach(u, p, u.conns[p].phase), p, u.conns[p]);
          DiscardKeepsBooks(ClosePeer(u, p), fd, c);
        } else {
          DiscardKeepsBooks(u, fd, c);
        }
      }
    }
  }

  lemma ClientMapIsNotInTheBooks(s: State, t: State)
    requires Books(s) && t == s.(clientOf := t.clientOf, retries := t.retries)
    ensures Books(t)
  {
    hide Budgeted;
    SamePhasesKeepCounts(s, t);
    assert Budgeted(t, 0) by { BudgetOnly(s, t); }
  }

  lemma BudgetOnly(s: State, t: State)
    requires Budgeted(s, 0) && t.conns == s.conns && t.used == s.used && t.limit == s.limit
    ensures Budgeted(t, 0)
  {
  }

  // ---------------------------------------------------------------- close_connection

  lemma CloseKeepsInv(s: State, fd: Fd)
    requires Inv(s, 0)
    ensures Inv(Close(s, fd), 0)
  {
    hide Linked, Sound, RetriesRecorded, Counted, Gauged, Budgeted, Close, Removed, WholePairs;
    var t, gone := Close(s, fd), Pair(s, fd);
    CloseRemovesPair(s, fd);
    PairIsWhole(s, fd);
    RemovalKeepsLinks(s, t, gone);
    RemovalKeepsSound(s, t, gone);
    RemovalKeepsRecords(s, t, gone);
    if fd in s.conns {
      PeerFacts(s, fd);
    }
    CloseKeepsBooks(s, fd);
  }

  lemma CloseKeepsStreams(s: State, fd: Fd)
    requires Linked(s) && Sound(s) && Streams(s)
    ensures Streams(Close(s, fd))
  {
    hide *;
    CloseRemovesPair(s, fd);
    PairIsWhole(s, fd);
    RemovalKeepsStreams(s, Close(s, fd), Pair(s, fd));
  }

  // ---------------------------------------------------------------- close_backend_connection_only

  /** `t` is `s` without the backend `b`, whose client stays behind without a peer. */
  ghost predicate Widowed(s: State, t: State, b: Fd) {
    && b in s.clientOf && s.clientOf[b] in s.conns
    && t.conns == (s.conns - {b})[s.clientOf[b] := s.conns[s.clientOf[b]].(peer := None)]
    && t.nodeOf == s.nodeOf - {b}
    && t.clientOf == s.clientOf - {b}
    && t.retries == s.retries
  }

  lemma BackendOnlyWidows(s: State, b: Fd)
    requires Linked(s) && b in s.clientOf
    ensures Widowed(s, CloseBackendOnly(s, b), b)
  {
    var c := s.clientOf[b];
    assert s.conns[c := s.conns[c].(peer := None)] - {b} == (s.conns - {b})[c := s.conns[c].(peer := None)];
  }

  lemma WidowedKeepsLinks(s: State, t: State, b: Fd)
    requires Linked(s) && Widowed(s, t, b)
    ensures Linked(t)
  {
    hide Linked;
    var c := s.clientOf[b];
    OldPair(s, b);
    SameKeys(s);
    forall x | x in t.clientOf
      ensures x in t.conns && t.clientOf[x] in t.conns && t.clientOf[x] !in t.clientOf
      ensures t.conns[x].peer == Some(t.clientOf[x]) && t.conns[t.clientOf[x]].peer == Some(x)
    {
      OldPair(s, x);
    }
    forall f | f in t.conns && f !in t.clientOf && t.conns[f].peer.Some?
      ensures t.conns[f].peer.value in t.clientOf && t.clientOf[t.conns[f].peer.value] == f
    {
      LoneOrClient(s, f);
    }
    LinkedBy(t);
  }

  lemma WidowedKeepsSound(s: State, t: State, b: Fd)
    requires Sound(s) && Linked(s) && Widowed(s, t, b)
    ensures Sound(t)
  {
    hide ConnectionOk, Linked;
    var c := s.clientOf[b];
    LoneClientOk(s, b);
    forall f | f in t.conns
      ensures ConnectionOk(t.conns[f], f in t.clientOf)
    {
      assert ConnectionOk(s.conns[f], f in s.clientOf);
    }
  }

  lemma LoneClientOk(s: State, b: Fd)
    requires Sound(s) && Linked(s) && b in s.clientOf
    ensures s.clientOf[b] !in s.clientOf
    ensures ConnectionOk(s.conns[s.clientOf[b]].(peer := None), false)
  {
    assert ConnectionOk(s.conns[s.clientOf[b]], false);
  }

  lemma WidowedKeepsRecords(s: State, t: State, b: Fd)
    requires RetriesRecorded(s) && Linked(s) && Widowed(s, t, b)
    ensures RetriesRecorded(t)
  {
    forall x | x in t.clientOf
      ensures t.clientOf[x] in t.conns && t.clientOf[x] in t.retries
      ensures t.retries[t.clientOf[x]] == t.conns[t.clientOf[x]].retriesMade
    {
      assert s.clientOf[x] != b;
    }
  }

  lemma WidowedKeepsStreams(s: State, t: State, b: Fd)
    requires Streams(s) && Linked(s) && Widowed(s, t, b)
    ensures Streams(t)
  {
    hide Carried, StreamOk;
    var c := s.clientOf[b];
    LoneStreamOk(s.conns[c]);
    forall x | x in t.clientOf
      ensures x in t.conns && t.clientOf[x] in t.conns
      ensures Carried(t.conns[t.clientOf[x]], t.conns[x]) && Carried(t.conns[x], t.conns[t.clientOf[x]])
    {
      assert s.clientOf[x] != c && s.clientOf[x] != b && x != c;
      assert t.conns[x] == s.conns[x];
      assert t.conns[t.clientOf[x]] == s.conns[s.clientOf[x]];
    }
  }

  lemma LoneStreamOk(c: Connection)
    ensures StreamOk(c.(peer := None)) <==> StreamOk(c)
  {
  }

  lemma BackendOnlyKeepsBooks(s: State, b: Fd)
    requires Books(s)
    requires b in s.conns ==> s.conns[b].peer != Some(b)
    ensures Books(CloseBackendOnly(s, b))
  {
    if b in s.conns {
      var c := s.conns[b];
      var t := Detach(s, b, c.phase);
      var u := t.(retries := s.retries);
      var v := u.(conns := ForgottenByPeer(u.conns, c));
      assert b !in v.nodeOf && v.conns[b] == c && CloseBackendOnly(s, b) == Discard(v, b, c);
      hide Books, Detach, ForgottenByPeer, Discard, CloseBackendOnly;
      DetachKeepsBooks(s, b);
      ClientMapIsNotInTheBooks(t, u);
      ForgettingKeepsBooks(u, c);
      DiscardKeepsBooks(v, b, c);
    }
  }

  lemma BackendOnlyKeepsInv(s: State, b: Fd)
    requires Inv(s, 0) && b in s.clientOf
    ensures Inv(CloseBackendOnly(s, b), 0)
    ensures Widowed(s, CloseBackendOnly(s, b), b)
  {
    var t := CloseBackendOnly(s, b);
    assert b in s.conns && s.conns[b].peer != Some(b);
    hide Linked, Sound, RetriesRecorded, Counted, Gauged, Budgeted, CloseBackendOnly, Widowed;
    BackendOnlyWidows(s, b);
    WidowedKeepsLinks(s, t, b);
    WidowedKeepsSound(s, t, b);
    WidowedKeepsRecords(s, t, b);
    BackendOnlyKeepsBooks(s, b);
  }

  lemma BackendOnlyKeepsStreams(s: State, b: Fd)
    requires Linked(s) && Streams(s) && b in s.clientOf
    ensures Streams(CloseBackendOnly(s, b))
  {
    hide *;
    BackendOnlyWidows(s, b);
    WidowedKeepsStreams(s, CloseBackendOnly(s, b), b);
  }
}
