/** Accepting, routing, retrying and establishing: each keeps every invariant. */
module LifecycleConnecting {
  import opened Collections
  import opened Backends
  import opened Lifecycle
  import opened LifecycleInvariants
  import opened LifecycleClosing

  /** A client between tables, about to be routed for the `retryCount`-th time again. */
  ghost predicate Ready(c: Connection, retryCount: nat) {
    && c.phase.Established? && c.peer.None? && c.accounted
    && |c.writeBuf| <= MAX_BUFFER
    && c.retriesMade == retryCount <= MAX_RETRY_ATTEMPTS
  }

  /** Such a client has sent nothing on and received nothing back. */
  ghost predicate Waiting(c: Connection) {
    c.sent == [] && c.writeBuf == [] && c.received == c.readBuf && |c.readBuf| <= MAX_BUFFER
  }

  /** Descriptors of new sockets are not in use. */
  ghost predicate Fits(s: State, clientFd: Fd, a: Attempt) {
    a.Pooled? || a.Immediate? || a.InProgress? ==> a.fd !in s.conns && a.fd != clientFd
  }

  ghost predicate AllFit(s: State, clientFd: Fd, attempts: seq<Attempt>) {
    forall a :: a in attempts ==> Fits(s, clientFd, a)
  }

  // ---------------------------------------------------------------- linking

  /** `t` is `s` with the pair of `clientFd` and `fd` added. */
  ghost predicate Joined(s: State, t: State, clientFd: Fd, client: Connection, node: NodeId, fd: Fd,
      phase: Phase, retryCount: nat) {
    && clientFd !in s.conns && fd !in s.conns && clientFd != fd
    && t.conns == s.conns[clientFd := client.(peer := Some(fd))][fd := NewConnection(phase).(peer := Some(clientFd))]
    && t.nodeOf == s.nodeOf[fd := node]
    && t.clientOf == s.clientOf[fd := clientFd]
    && t.retries == s.retries[clientFd := retryCount]
  }

  lemma JoinedKeepsLinks(s: State, t: State, clientFd: Fd, client: Connection, node: NodeId, fd: Fd,
      phase: Phase, retryCount: nat)
    requires Linked(s) && Joined(s, t, clientFd, client, node, fd, phase, retryCount)
    ensures Linked(t)
  {
    hide Linked;
    NewPairIsApart(s, clientFd, fd);
    forall b | b in t.clientOf
      ensures b in t.conns && t.clientOf[b] in t.conns && t.clientOf[b] !in t.clientOf
      ensures t.conns[b].peer == Some(t.clientOf[b]) && t.conns[t.clientOf[b]].peer == Some(b)
    {
      if b != fd {
        OldPair(s, b);
      }
    }
    forall f | f in t.conns && f !in t.clientOf && t.conns[f].peer.Some?
      ensures t.conns[f].peer.value in t.clientOf && t.clientOf[t.conns[f].peer.value] == f
    {
      if f != clientFd {
        LoneOrClient(s, f);
      }
    }
    SameKeys(s);
    LinkedBy(t);
  }

  lemma NewPairIsApart(s: State, clientFd: Fd, fd: Fd)
    requires Linked(s) && clientFd !in s.conns && fd !in s.conns
    ensures clientFd !in s.clientOf && fd !in s.clientOf
    ensures forall b :: b in s.clientOf ==> s.clientOf[b] != clientFd && s.clientOf[b] != fd
  {
  }

  lemma JoinedKeepsSound(s: State, t: State, clientFd: Fd, client: Connection, node: NodeId, fd: Fd,
      phase: Phase, retryCount: nat)
    requires Linked(s) && Sound(s) && Joined(s, t, clientFd, client, node, fd, phase, retryCount)
    requires Ready(client, retryCount) && (phase.Connecting? || phase.Established?)
    ensures Sound(t)
  {
    assert ConnectionOk(client.(peer := Some(fd)), false);
    assert ConnectionOk(NewConnection(phase).(peer := Some(clientFd)), true);
    assert clientFd !in t.clientOf;
    hide ConnectionOk, Linked, Ready;
    forall f | f in t.conns
      ensures ConnectionOk(t.conns[f], f in t.clientOf)
    {
      if f != fd && f != clientFd {
        assert ConnectionOk(s.conns[f], f in s.clientOf);
      }
    }
  }

  lemma JoinedKeepsRecords(s: State, t: State, clientFd: Fd, client: Connection, node: NodeId, fd: Fd,
      phase: Phase, retryCount: nat)
    requires RetriesRecorded(s) && Joined(s, t, clientFd, client, node, fd, phase, retryCount)
    requires client.retriesMade == retryCount
    ensures RetriesRecorded(t)
  {
    forall b | b in t.clientOf
      ensures t.clientOf[b] in t.conns && t.clientOf[b] in t.retries
      ensures t.retries[t.clientOf[b]] == t.conns[t.clientOf[b]].retriesMade
    {
      if b != fd {
        assert s.clientOf[b] in s.conns;
      }
    }
  }

  lemma JoinedKeepsStreams(s: State, t: State, clientFd: Fd, client: Connection, node: NodeId, fd: Fd,
      phase: Phase, retryCount: nat)
    requires Streams(s) && Joined(s, t, clientFd, client, node, fd, phase, retryCount)
    requires Waiting(client) && client.phase.Established?
    ensures Streams(t)
  {
    var c, b := client.(peer := Some(fd)), NewConnection(phase).(peer := Some(clientFd));
    assert Carried(c, b) && Carried(b, c) && StreamOk(c) && StreamOk(b);
    hide Carried, StreamOk, Waiting;
    forall x | x in t.clientOf
      ensures x in t.conns && t.clientOf[x] in t.conns
      ensures Carried(t.conns[t.clientOf[x]], t.conns[x]) && Carried(t.conns[x], t.conns[t.clientOf[x]])
    {
      if x != fd {
        assert x in s.conns && s.clientOf[x] in s.conns;
      }
    }
  }

  lemma LinkKeepsCounts(s: State, clientFd: Fd, client: Connection, node: NodeId, fd: Fd, phase: Phase,
      retryCount: nat, now: Time)
    requires Counted(s) && fd !in s.nodeOf && clientFd !in s.nodeOf && clientFd != fd
    ensures Counted(Link(s, clientFd, client, node, fd, phase, retryCount, now))
  {
    var t := Link(s, clientFd, client, node, fd, phase, retryCount, now);
    forall id | id in t.nodes
      ensures t.nodes[id].active == |Holders(t, id)|
    {
      LinkHolders(s, clientFd, client, node, fd, phase, retryCount, now, id);
      hide Link, Holders;
    }
  }

  lemma LinkHolders(s: State, clientFd: Fd, client: Connection, node: NodeId, fd: Fd, phase: Phase,
      retryCount: nat, now: Time, id: NodeId)
    requires fd !in s.nodeOf && clientFd !in s.nodeOf && clientFd != fd
    ensures var t := Link(s, clientFd, client, node, fd, phase, retryCount, now);
      && fd !in Holders(s, id)
      && Holders(t, id) == (if id == node && phase.Established? then Holders(s, id) + {fd} else Holders(s, id))
  {
  }

  lemma LinkKeepsBudget(s: State, clientFd: Fd, client: Connection, node: NodeId, fd: Fd, phase: Phase,
      retryCount: nat, now: Time)
    requires client.accounted && Budgeted(s, client.Size())
    requires clientFd !in s.conns && fd !in s.conns && clientFd != fd
    ensures Budgeted(Link(s, clientFd, client, node, fd, phase, retryCount, now), 0)
  {
    hide Footprint;
    var c := client.(peer := Some(fd));
    FootprintUpdate(s.conns, clientFd, c);
    FootprintUpdate(s.conns[clientFd := c], fd, NewConnection(phase).(peer := Some(clientFd)));
  }

  lemma LinkKeepsInv(s: State, clientFd: Fd, client: Connection, node: NodeId, fd: Fd, phase: Phase,
      retryCount: nat, now: Time)
    requires Inv(s, client.Size())
    requires clientFd !in s.conns && fd !in s.conns && clientFd != fd
    requires Ready(client, retryCount) && (phase.Connecting? || phase.Established?)
    ensures Inv(Link(s, clientFd, client, node, fd, phase, retryCount, now), 0)
  {
    var t := Link(s, clientFd, client, node, fd, phase, retryCount, now);
    assert Joined(s, t, clientFd, client, node, fd, phase, retryCount);
    assert t.gauge == s.gauge && t.pressure == s.pressure;
    assert client.accounted && client.retriesMade == retryCount;
    hide Linked, Sound, RetriesRecorded, Counted, Budgeted, Link, Joined, Ready;
    NewPairIsApart(s, clientFd, fd);
    SameKeys(s);
    JoinedKeepsLinks(s, t, clientFd, client, node, fd, phase, retryCount);
    JoinedKeepsSound(s, t, clientFd, client, node, fd, phase, retryCount);
    JoinedKeepsRecords(s, t, clientFd, client, node, fd, phase, retryCount);
    LinkKeepsCounts(s, clientFd, client, node, fd, phase, retryCount, now);
    LinkKeepsBudget(s, clientFd, client, node, fd, phase, retryCount, now);
  }

  // ---------------------------------------------------------------- connect and retry

  lemma GiveUpKeepsInv(s: State, client: Connection)
    requires Inv(s, client.Size()) && client.accounted
    ensures Inv(GiveUp(s, client), 0)
  {
    hide Linked, Sound, RetriesRecorded, Footprint;
    var t := GiveUp(s, client);
    SamePhasesKeepCounts(s, t);
    SameTables(s, t);
  }

  /** Links, soundness and records do not depend on clocks, pressure, nodes or the budget. */
  lemma SameTables(s: State, t: State)
    requires t.conns == s.conns && t.nodeOf == s.nodeOf && t.clientOf == s.clientOf && t.retries == s.retries
    ensures Linked(s) ==> Linked(t)
    ensures Sound(s) ==> Sound(t)
    ensures RetriesRecorded(s) ==> RetriesRecorded(t)
    ensures Streams(s) ==> Streams(t)
  {
    hide ConnectionOk, Carried, StreamOk;
  }

  /** However many attempts `connect` makes, it ends with the tables in order. */
  lemma {:induction false} ConnectKeepsInv(s: State, clientFd: Fd, client: Connection, retryCount: nat,
      attempts: seq<Attempt>, now: Time)
    requires Inv(s, client.Size()) && clientFd !in s.conns
    requires Ready(client, retryCount) && AllFit(s, clientFd, attempts)
    ensures Inv(Connect(s, clientFd, client, retryCount, attempts, now), 0)
    decreases |attempts|
  {
    hide Inv, Link, GiveUp;
    assert client.(accounted := true) == client;
    if attempts == [] {
      GiveUpKeepsInv(s, client);
    } else {
      var a := attempts[0];
      assert Fits(s, clientFd, a);
      match a
      case NoBackend => GiveUpKeepsInv(s, client);
      case NoAddress(_) => GiveUpKeepsInv(s, client);
      case Pooled(node, fd) => LinkKeepsInv(s, clientFd, client, node, fd, Established, retryCount, now);
      case Immediate(node, fd) => LinkKeepsInv(s, clientFd, client, node, fd, Established, retryCount, now);
      case InProgress(node, fd) => LinkKeepsInv(s, clientFd, client, node, fd, Connecting, retryCount, now);
      case Refused(_) =>
        if retryCount >= MAX_RETRY_ATTEMPTS {
          GiveUpKeepsInv(s, client);
        } else {
          var next := client.(retriesMade := client.retriesMade + 1);
          assert next.Size() == client.Size();
          ConnectKeepsInv(s, clientFd, next, retryCount + 1, attempts[1..], now);
        }
    }
  }

  lemma LinkKeepsStreams(s: State, clientFd: Fd, client: Connection, node: NodeId, fd: Fd, phase: Phase,
      retryCount: nat, now: Time)
    requires Streams(s) && clientFd !in s.conns && fd !in s.conns && fd != clientFd
    requires Waiting(client) && client.phase.Established? && (phase.Connecting? || phase.Established?)
    ensures Streams(Link(s, clientFd, client, node, fd, phase, retryCount, now))
  {
    JoinedKeepsStreams(s, Link(s, clientFd, client, node, fd, phase, retryCount, now), clientFd, client, node,
        fd, phase, retryCount);
  }

  lemma GiveUpKeepsStreams(s: State, client: Connection)
    requires Streams(s)
    ensures Streams(GiveUp(s, client))
  {
    hide Streams;
    SameTables(s, GiveUp(s, client));
  }

  lemma {:induction false} ConnectKeepsStreams(s: State, clientFd: Fd, client: Connection, retryCount: nat,
      attempts: seq<Attempt>, now: Time)
    requires Streams(s) && clientFd !in s.conns
    requires Ready(client, retryCount) && Waiting(client) && AllFit(s, clientFd, attempts)
    ensures Streams(Connect(s, clientFd, client, retryCount, attempts, now))
    decreases |attempts|
  {
    hide Streams, Link, GiveUp;
    assert client.(accounted := true) == client;
    if attempts == [] {
      GiveUpKeepsStreams(s, client);
    } else {
      var a := attempts[0];
      assert Fits(s, clientFd, a);
      match a
      case NoBackend => GiveUpKeepsStreams(s, client);
      case NoAddress(_) => GiveUpKeepsStreams(s, client);
      case Pooled(node, fd) =>
        LinkKeepsStreams(s, clientFd, client, node, fd, Established, retryCount, now);
      case Immediate(node, fd) =>
        LinkKeepsStreams(s, clientFd, client, node, fd, Established, retryCount, now);
      case InProgress(node, fd) =>
        LinkKeepsStreams(s, clientFd, client, node, fd, Connecting, retryCount, now);
      case Refused(_) =>
        if retryCount >= MAX_RETRY_ATTEMPTS {
          GiveUpKeepsStreams(s, client);
        } else {
          ConnectKeepsStreams(s, clientFd, client.(retriesMade := client.retriesMade + 1), retryCount + 1,
              attempts[1..], now);
        }
    }
  }

  /** A client that leaves the tables for a moment takes its bytes along. */
  lemma TakeOutKeepsInv(s: State, f: Fd)
    requires Inv(s, 0) && f in s.conns && s.conns[f].peer.None? && s.conns[f].accounted
    ensures Inv(s.(conns := s.conns - {f}), s.conns[f].Size())
  {
    hide Linked, Sound, RetriesRecorded, Counted, Budgeted;
    var t := s.(conns := s.conns - {f});
    LoneIsUnmapped(s, f);
    SameKeys(s);
    TakeOutKeepsLinks(s, t, f);
    TakeOutKeepsRecords(s, t, f);
    SamePhasesKeepCounts(s, t);
    TakeOutKeepsBudget(s, t, f);
  }

  lemma TakeOutKeepsBudget(s: State, t: State, f: Fd)
    requires Budgeted(s, 0) && f in s.conns && s.conns[f].accounted && t == s.(conns := s.conns - {f})
    ensures Budgeted(t, s.conns[f].Size())
  {
    FootprintWithout(s.conns, f);
  }

  lemma LoneIsUnmapped(s: State, f: Fd)
    requires Linked(s) && f in s.conns && s.conns[f].peer.None?
    ensures f !in s.clientOf
    ensures forall b :: b in s.clientOf ==> s.clientOf[b] != f
  {
  }

  lemma TakeOutKeepsLinks(s: State, t: State, f: Fd)
    requires Linked(s) && t == s.(conns := s.conns - {f})
    requires f !in s.clientOf && forall b :: b in s.clientOf ==> s.clientOf[b] != f
    ensures Linked(t)
  {
  }

  lemma TakeOutKeepsRecords(s: State, t: State, f: Fd)
    requires Sound(s) && RetriesRecorded(s) && t == s.(conns := s.conns - {f})
    requires forall b :: b in s.clientOf ==> s.clientOf[b] != f
    ensures Sound(t) && RetriesRecorded(t)
  {
    hide ConnectionOk;
  }

  lemma TakeOutKeepsStreams(s: State, t: State, f: Fd)
    requires Streams(s) && t == s.(conns := s.conns - {f})
    requires f !in s.clientOf && forall b :: b in s.clientOf ==> s.clientOf[b] != f
    ensures Streams(t)
  {
    hide Carried, StreamOk;
  }

  /** The client of a backend that is still connecting, once the backend is gone. */
  lemma RetriedClient(s: State, b: Fd)
    requires Inv(s, 0) && b in s.clientOf && s.conns[b].phase.Connecting?
    ensures var c := s.clientOf[b];
      && c in s.conns && c != b
      && RetryCountOf(s, c) == s.conns[c].retriesMade
      && Ready(s.conns[c].(peer := None), RetryCountOf(s, c))
      && (Streams(s) ==> Waiting(s.conns[c].(peer := None)))
  {
    hide Linked, Sound, Streams, Counted, Gauged, Budgeted;
    var c := s.clientOf[b];
    OldPair(s, b);
    SoundAt(s, c);
    assert RetryCountOf(s, c) == s.conns[c].retriesMade;
    hide RetriesRecorded;
    if Streams(s) {
      StreamAt(s, b);
      StreamAt(s, c);
      BothCarry(s, b);
    }
  }

  lemma BothCarry(s: State, b: Fd)
    requires Streams(s) && b in s.clientOf
    ensures b in s.conns && s.clientOf[b] in s.conns
    ensures Carried(s.conns[s.clientOf[b]], s.conns[b]) && Carried(s.conns[b], s.conns[s.clientOf[b]])
  {
  }

  /** `retry` keeps the invariants like `connect`. */
  lemma RetryKeepsInv(s: State, clientFd: Fd, client: Connection, retryCount: nat, attempts: seq<Attempt>, now: Time)
    requires Inv(s, client.Size()) && clientFd !in s.conns
    requires Ready(client, retryCount) && AllFit(s, clientFd, attempts)
    ensures Inv(Retry(s, clientFd, client, retryCount, attempts, now), 0)
    ensures Streams(s) && Waiting(client) ==> Streams(Retry(s, clientFd, client, retryCount, attempts, now))
  {
    hide Inv, Streams, Connect;
    if retryCount >= MAX_RETRY_ATTEMPTS {
      GiveUpKeepsInv(s, client);
      SameTables(s, GiveUp(s, client));
    } else {
      var next := client.(retriesMade := client.retriesMade + 1);
      assert next.Size() == client.Size();
      ConnectKeepsInv(s, clientFd, next, retryCount + 1, attempts, now);
      if Streams(s) && Waiting(client) {
        ConnectKeepsStreams(s, clientFd, next, retryCount + 1, attempts, now);
      }
    }
  }

  /** `try_retry_on_backend_error` for a backend that is still connecting. */
  lemma RetryBackendKeepsInv(s: State, b: Fd, attempts: seq<Attempt>, now: Time)
    requires Inv(s, 0) && b in s.clientOf && s.conns[b].phase.Connecting?
    requires AllFit(CloseBackendOnly(s, b), s.clientOf[b], attempts)
    ensures CanRetry(s, b) && s.clientOf[b] != b
    ensures Inv(RetryBackend(s, b, attempts, now), 0)
    ensures Streams(s) ==> Streams(RetryBackend(s, b, attempts, now))
  {
    var c, t := s.clientOf[b], CloseBackendOnly(s, b);
    RetriedClient(s, b);
    BackendOnlyKeepsInv(s, b);
    assert t.conns[c] == s.conns[c].(peer := None);
    hide CloseBackendOnly, Widowed, Fits, Linked, Sound, RetriesRecorded, Counted, Gauged, Budgeted, Streams,
        Connect, AllFit;
    var u := t.(conns := t.conns - {c});
    FewerConnections(t, u, c, attempts);
    TakeOutKeepsInv(t, c);
    LoneIsUnmapped(t, c);
    if Streams(s) {
      BackendOnlyKeepsStreams(s, b);
      TakeOutKeepsStreams(t, u, c);
    }
    RetryKeepsInv(u, c, t.conns[c], RetryCountOf(s, c), attempts, now);
  }

  lemma FewerConnections(s: State, t: State, c: Fd, attempts: seq<Attempt>)
    requires AllFit(s, c, attempts) && t.conns.Keys <= s.conns.Keys
    ensures AllFit(t, c, attempts)
  {
    forall a | a in attempts
      ensures Fits(t, c, a)
    {
      assert Fits(s, c, a);
    }
  }

  /** The bytes of a client that have not been read yet, and its whole history, are the same. */
  ghost predicate SameBytes(c: Connection, d: Connection) {
    c.readBuf == d.readBuf && c.writeBuf == d.writeBuf && c.received == d.received && c.sent == d.sent
  }

  /** The client is gone, or paired again with its bytes unchanged. */
  ghost predicate Routed(s: State, t: State, clientFd: Fd, client: Connection) {
    || t.conns == s.conns
    || (&& clientFd in t.conns && SameBytes(client, t.conns[clientFd])
        && client.retriesMade <= t.conns[clientFd].retriesMade <= MAX_RETRY_ATTEMPTS
        && t.conns[clientFd].peer.Some?
        && t.conns[clientFd].peer.value !in s.conns
        && t.conns.Keys == s.conns.Keys + {clientFd, t.conns[clientFd].peer.value})
  }

  lemma LinkRoutes(s: State, clientFd: Fd, client: Connection, node: NodeId, fd: Fd, phase: Phase,
      retryCount: nat, now: Time)
    requires fd !in s.conns && clientFd !in s.conns && fd != clientFd && client.retriesMade <= MAX_RETRY_ATTEMPTS
    ensures Routed(s, Link(s, clientFd, client, node, fd, phase, retryCount, now), clientFd, client)
  {
  }

  /** Routing, with all its retries, either gives the client up or pairs it with its bytes
      unchanged and its retry count within the bound. */
  lemma {:induction false} ConnectRoutes(s: State, clientFd: Fd, client: Connection, retryCount: nat,
      attempts: seq<Attempt>, now: Time)
    requires clientFd !in s.conns && Ready(client, retryCount) && AllFit(s, clientFd, attempts)
    ensures Routed(s, Connect(s, clientFd, client, retryCount, attempts, now), clientFd, client)
    decreases |attempts|
  {
    assert client.(accounted := true) == client;
    assert Routed(s, GiveUp(s, client), clientFd, client);
    hide Link, Routed;
    if attempts != [] {
      var a := attempts[0];
      assert Fits(s, clientFd, a);
      match a
      case NoBackend =>
      case NoAddress(_) =>
      case Pooled(node, fd) => LinkRoutes(s, clientFd, client, node, fd, Established, retryCount, now);
      case Immediate(node, fd) => LinkRoutes(s, clientFd, client, node, fd, Established, retryCount, now);
      case InProgress(node, fd) => LinkRoutes(s, clientFd, client, node, fd, Connecting, retryCount, now);
      case Refused(_) =>
        if retryCount < MAX_RETRY_ATTEMPTS {
          var next := client.(retriesMade := client.retriesMade + 1);
          ConnectRoutes(s, clientFd, next, retryCount + 1, attempts[1..], now);
          RoutedBefore(s, Connect(s, clientFd, next, retryCount + 1, attempts[1..], now), clientFd, client, next);
        }
    }
  }

  lemma RoutedBefore(s: State, t: State, clientFd: Fd, client: Connection, next: Connection)
    requires Routed(s, t, clientFd, next) && SameBytes(client, next) && client.retriesMade <= next.retriesMade
    ensures Routed(s, t, clientFd, client)
  {
  }

  /** `c` is gone from the table, or has all its bytes, one more retry and a peer. */
  ghost predicate RoutedAgain(s: State, t: State, c: Fd) {
    c in s.conns && c in t.conns ==>
      && SameBytes(s.conns[c], t.conns[c])
      && s.conns[c].retriesMade < t.conns[c].retriesMade <= MAX_RETRY_ATTEMPTS
      && t.conns[c].peer.Some? && t.conns[c].peer.value in t.conns
  }

  lemma RetryRoutes(s: State, clientFd: Fd, client: Connection, attempts: seq<Attempt>, now: Time)
    requires clientFd !in s.conns && Ready(client, client.retriesMade) && AllFit(s, clientFd, attempts)
    ensures var t := Retry(s, clientFd, client, client.retriesMade, attempts, now);
      clientFd in t.conns ==>
        && SameBytes(client, t.conns[clientFd])
        && client.retriesMade < t.conns[clientFd].retriesMade <= MAX_RETRY_ATTEMPTS
        && t.conns[clientFd].peer.Some? && t.conns[clientFd].peer.value in t.conns
  {
    hide Connect;
    if client.retriesMade < MAX_RETRY_ATTEMPTS {
      ConnectRoutes(s, clientFd, client.(retriesMade := client.retriesMade + 1), client.retriesMade + 1, attempts, now);
    }
  }

  lemma RetryBackendRoutes(s: State, b: Fd, attempts: seq<Attempt>, now: Time)
    requires Inv(s, 0) && b in s.clientOf && b in s.conns && s.conns[b].phase.Connecting?
    requires AllFit(CloseBackendOnly(s, b), s.clientOf[b], attempts)
    ensures CanRetry(s, b) && s.clientOf[b] != b
    ensures RoutedAgain(s, RetryBackend(s, b, attempts, now), s.clientOf[b])
  {
    hide Linked, Sound, RetriesRecorded, Counted, Gauged, Budgeted, CloseBackendOnly, Retry, AllFit, Ready;
    var c, t := s.clientOf[b], CloseBackendOnly(s, b);
    RetriedClient(s, b);
    BackendOnlyWidows(s, b);
    assert t.conns[c] == s.conns[c].(peer := None);
    hide Inv, Widowed;
    var u := t.(conns := t.conns - {c});
    FewerConnections(t, u, c, attempts);
    RetryRoutes(u, c, t.conns[c], attempts, now);
  }
}
