/** The connection tables change nothing about a node but its connection count. */
module LifecycleNodes {
  import opened Collections
  import opened Backends
  import opened Lifecycle
  import opened LifecycleRuns

  /** The same nodes, except for their counts. */
  ghost predicate Alike(m: map<NodeId, Backend>, n: map<NodeId, Backend>) {
    && n.Keys == m.Keys
    && (forall id :: id in m ==> n[id] == m[id].(active := n[id].active))
  }

  lemma AlikeIsTransitive(m: map<NodeId, Backend>, n: map<NodeId, Backend>, o: map<NodeId, Backend>)
    requires Alike(m, n) && Alike(n, o)
    ensures Alike(m, o)
  {
  }

  lemma DetachIsAlike(s: State, fd: Fd, phase: Phase)
    ensures Alike(s.nodes, Detach(s, fd, phase).nodes) && Detach(s, fd, phase).conns == s.conns
  {
  }

  lemma CloseIsAlike(s: State, fd: Fd)
    ensures Alike(s.nodes, Close(s, fd).nodes)
  {
    hide Detach, Alike, ReleaseFor;
    assert Alike(s.nodes, s.nodes) by { SelfAlike(s.nodes); }
    if fd in s.conns {
      var c := s.conns[fd];
      var t := Detach(s, fd, c.phase);
      DetachIsAlike(s, fd, c.phase);
      var u := t.(clientOf := DropValue(t.clientOf, fd));
      if !c.phase.Closed? && c.peer.Some? && c.peer.value in u.conns {
        var p := u.conns[c.peer.value];
        DetachIsAlike(u, c.peer.value, p.phase);
        AlikeIsTransitive(s.nodes, u.nodes, Detach(u, c.peer.value, p.phase).nodes);
      }
    }
  }

  lemma SelfAlike(m: map<NodeId, Backend>)
    ensures Alike(m, m)
  {
  }

  lemma BackendOnlyIsAlike(s: State, fd: Fd)
    ensures Alike(s.nodes, CloseBackendOnly(s, fd).nodes)
  {
    hide Detach, Alike, ReleaseFor, ForgottenByPeer;
    SelfAlike(s.nodes);
    if fd in s.conns {
      DetachIsAlike(s, fd, s.conns[fd].phase);
    }
  }

  lemma LinkIsAlike(s: State, clientFd: Fd, client: Connection, node: NodeId, fd: Fd, phase: Phase,
      retryCount: nat, now: Time)
    ensures Alike(s.nodes, Link(s, clientFd, client, node, fd, phase, retryCount, now).nodes)
  {
  }

  lemma {:induction false} ConnectIsAlike(s: State, clientFd: Fd, client: Connection, retryCount: nat,
      attempts: seq<Attempt>, now: Time)
    ensures Alike(s.nodes, Connect(s, clientFd, client, retryCount, attempts, now).nodes)
    decreases |attempts|
  {
    hide Link, Alike, ReleaseFor;
    SelfAlike(s.nodes);
    if attempts != [] {
      var c := client.(accounted := true);
      match attempts[0]
      case NoBackend =>
      case NoAddress(_) =>
      case Pooled(node, fd) => LinkIsAlike(s, clientFd, c, node, fd, Established, retryCount, now);
      case Immediate(node, fd) => LinkIsAlike(s, clientFd, c, node, fd, Established, retryCount, now);
      case InProgress(node, fd) => LinkIsAlike(s, clientFd, c, node, fd, Connecting, retryCount, now);
      case Refused(_) =>
        if retryCount < MAX_RETRY_ATTEMPTS {
          ConnectIsAlike(s, clientFd, c.(retriesMade := c.retriesMade + 1), retryCount + 1, attempts[1..], now);
        }
    }
  }

  lemma RetryBackendIsAlike(s: State, fd: Fd, attempts: seq<Attempt>, now: Time)
    requires CanRetry(s, fd) && s.clientOf[fd] != fd
    ensures Alike(s.nodes, RetryBackend(s, fd, attempts, now).nodes)
  {
    hide Connect, Alike, ReleaseFor;
    var clientFd := s.clientOf[fd];
    var t := CloseBackendOnly(s, fd);
    assert clientFd in t.conns;
    hide CloseBackendOnly;
    BackendOnlyIsAlike(s, fd);
    var u, c, count := t.(conns := t.conns - {clientFd}), t.conns[clientFd], RetryCountOf(s, clientFd);
    if count < MAX_RETRY_ATTEMPTS {
      var d := c.(retriesMade := c.retriesMade + 1);
      ConnectIsAlike(u, clientFd, d, count + 1, attempts, now);
      AlikeIsTransitive(s.nodes, u.nodes, Connect(u, clientFd, d, count + 1, attempts, now).nodes);
    }
  }

  lemma EstablishIsAlike(s: State, fd: Fd)
    requires fd in s.conns
    ensures Alike(s.nodes, Establish(s, fd).nodes)
  {
  }

  lemma ForwardIsAlike(s: State, from: Fd, to: Fd, r: WriteResult, kernelBusy: bool, now: Time)
    requires from in s.conns && to in s.conns && from != to
    requires CanForward(s, from, to) ==> WriteFits(Shift(s, from, to).conns[to], r)
    ensures Alike(s.nodes, Forward(s, from, to, r, kernelBusy, now).nodes)
  {
    hide Close, Alike, WriteTo, Portion;
    SelfAlike(s.nodes);
    if CanForward(s, from, to) && r.WriteFailed? {
      CloseIsAlike(Write(Shift(s, from, to), to, r), to);
    }
  }

  lemma RoutingIsAlike(s: State, step: Step)
    requires Enabled(s, step) && IsRouting(step)
    ensures Alike(s.nodes, Apply(s, step).nodes)
  {
    hide Alike, Connect, Close, CloseBackendOnly, RetryBackend, Establish;
    SelfAlike(s.nodes);
    match step
    case Accepted(fd, attempts, now) =>
      ConnectIsAlike(s.(connTimes := s.connTimes[fd := now]), fd, NewConnection(Established), 0, attempts, now);
    case AcceptedTls(_, _) =>
    case Rejected(_, _, _) =>
    case HandshakeDone(fd, attempts, now) =>
      ConnectIsAlike(s.(conns := s.conns - {fd}), fd, s.conns[fd].(phase := Established), 0, attempts, now);
    case Connected(fd) => EstablishIsAlike(s, fd);
    case ConnectFailed(fd, attempts, now) =>
      CloseIsAlike(s, fd);
      if CanRetry(s, fd) && s.clientOf[fd] != fd {
        RetryBackendIsAlike(s, fd, attempts, now);
      }
    case Closing(fd) => CloseIsAlike(s, fd);
    case BackendClosing(fd) => BackendOnlyIsAlike(s, fd);
  }

  lemma BytesAreAlike(s: State, step: Step)
    requires Enabled(s, step) && !IsRouting(step) && !step.PoolChanged?
    ensures Alike(s.nodes, Apply(s, step).nodes)
  {
    hide Alike, Forward, ReadFrom, WriteTo, RewriteIn;
    SelfAlike(s.nodes);
    match step
    case Reading(_, _) =>
    case Writing(_, _) =>
    case Forwarding(from, to, r, kernelBusy, now) => ForwardIsAlike(s, from, to, r, kernelBusy, now);
    case Rewriting(_, _) =>
    case PressureStarted(_, _) =>
    case PressureCleared(_) =>
    case LimitChanged(_) =>
  }

  /** No step but a pool change touches a node's identity, address, weight or health. */
  lemma StepsAreAlike(s: State, step: Step)
    requires !step.PoolChanged?
    ensures Alike(s.nodes, Apply(s, step).nodes)
  {
    if Enabled(s, step) {
      hide Apply, Enabled, Alike;
      if IsRouting(step) {
        RoutingIsAlike(s, step);
      } else {
        BytesAreAlike(s, step);
      }
    } else {
      SelfAlike(s.nodes);
    }
  }
}
