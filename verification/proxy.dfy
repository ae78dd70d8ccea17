/** The proxy's reactor side as it runs: the shared tables are fields that the operations
    update in place, one statement at a time. Each method is proved to do what the
    corresponding function of `Lifecycle` says. */
module ProxyTables {
  import opened Collections
  import opened Backends
  import MemoryBudget
  import opened Lifecycle

  ghost predicate Mutual(conns: map<Fd, Connection>) {
    forall f :: f in conns && conns[f].peer.Some? ==>
      && conns[f].peer.value != f
      && conns[f].peer.value in conns
      && conns[conns[f].peer.value].peer == Some(f)
  }

  class Tables {
    var conns: map<Fd, Connection>
    var nodeOf: map<Fd, NodeId>
    var clientOf: map<Fd, Fd>
    var connTimes: map<Fd, Time>
    var pressure: map<Fd, Time>
    var retries: map<Fd, nat>
    var nodes: map<NodeId, Backend>
    var gauge: nat
    var used: nat
    var limit: nat

    ghost function View(): State
      reads this
    {
      State(conns, nodeOf, clientOf, connTimes, pressure, retries, nodes, gauge, used, limit)
    }

    /** Peer pointers are null or point, both ways, at another connection in the table. */
    ghost predicate PeersAlive()
      reads this
    {
      Mutual(conns)
    }

    constructor (nodes: map<NodeId, Backend>, limit: nat)
      ensures View() == State(map[], map[], map[], map[], map[], map[], nodes, 0, 0, limit)
    {
      conns, nodeOf, clientOf, connTimes, pressure, retries := map[], map[], map[], map[], map[], map[];
      this.nodes, gauge, used, this.limit := nodes, 0, 0, limit;
    }

    // -------------------------------------------------------------- small mutators

    method StartTracking(fd: Fd, now: Time)
      modifies this`pressure, this`gauge
      ensures View() == StartPressure(old(View()), fd, now)
    {
      if fd !in pressure {
        pressure := pressure[fd := now];
        gauge := gauge + 1;
      }
    }

    method ClearTracking(fd: Fd)
      modifies this`pressure, this`gauge
      ensures View() == ClearPressure(old(View()), fd)
    {
      if fd in pressure {
        pressure := pressure - {fd};
        LowerGauge();
      }
    }

    method LowerGauge()
      modifies this`gauge
      ensures gauge == if old(gauge) > 0 then old(gauge) - 1 else 0
    {
      if gauge > 0 {
        gauge := gauge - 1;
      }
    }

    method ReleaseBytes(c: Connection)
      modifies this`used
      ensures used == ReleaseFor(old(used), c)
    {
      if c.accounted {
        used := MemoryBudget.Release(used, |c.readBuf| + |c.writeBuf|);
      }
    }

    // -------------------------------------------------------------- closing

    /** The loop over `backend_to_client_map_` that erases every backend of `fd`. */
    method EraseBackendsOf(fd: Fd)
      modifies this`clientOf
      ensures clientOf == DropValue(old(clientOf), fd)
    {
      var todo := clientOf.Keys;
      while todo != {}
        invariant todo <= old(clientOf).Keys
        invariant clientOf == map b | b in old(clientOf) && (b in todo || old(clientOf)[b] != fd) :: old(clientOf)[b]
        decreases |todo|
      {
        var b :| b in todo;
        if clientOf[b] == fd {
          clientOf := clientOf - {b};
        }
        todo := todo - {b};
      }
    }

    /** A closing descriptor leaves the side tables. */
    method Forget(fd: Fd, wasEstablished: bool)
      modifies this`nodes, this`nodeOf, this`clientOf, this`connTimes, this`pressure, this`retries, this`gauge
      ensures View() == Detach(old(View()), fd, if wasEstablished then Established else Closed)
    {
      LeaveNode(fd, wasEstablished);
      connTimes := connTimes - {fd};
      LeavePressure(fd);
      retries := retries - {fd};
      clientOf := clientOf - {fd};
    }

    /** A backend refers to its node no more; an established one gives back its slot. */
    method LeaveNode(fd: Fd, wasEstablished: bool)
      modifies this`nodes, this`nodeOf
      ensures nodeOf == old(nodeOf) - {fd}
      ensures nodes ==
        if fd in old(nodeOf) && wasEstablished then DecrementNode(old(nodes), old(nodeOf)[fd]) else old(nodes)
    {
      if fd in nodeOf {
        var id := nodeOf[fd];
        if id in nodes && wasEstablished {
          nodes := nodes[id := nodes[id].Decremented()];
        }
        nodeOf := nodeOf - {fd};
      } else {
        MinusAbsent(nodeOf, fd);
      }
    }

    method LeavePressure(fd: Fd)
      modifies this`pressure, this`gauge
      ensures pressure == old(pressure) - {fd}
      ensures gauge == if fd in old(pressure) && old(gauge) > 0 then old(gauge) - 1 else old(gauge)
    {
      if fd in pressure {
        LowerGauge();
      }
      pressure := pressure - {fd};
    }

    /** The connection object of `fd` is destroyed, or leaves for the pool with empty buffers. */
    method Destroy(fd: Fd, c: Connection)
      modifies this`conns, this`used
      ensures View() == Discard(old(View()), fd, c)
    {
      ReleaseBytes(c);
      conns := conns - {fd};
    }

    method CloseConnection(fd: Fd)
      requires PeersAlive()
      modifies this
      ensures View() == Close(old(View()), fd)
    {
      if fd !in conns {
        return;
      }
      ghost var before := View();
      var conn := conns[fd];
      if conn.phase.Closed? {
        Forget(fd, false);
        if conn.peer.Some? {
          conns := conns[conn.peer.value := conns[conn.peer.value].(peer := None)];
        }
        Destroy(fd, conn);
        return;
      }
      Forget(fd, conn.phase.Established?);
      conns := conns[fd := conn.(phase := Closed, peer := None)];
      EraseBackendsOf(fd);
      if conn.peer.Some? {
        ClosePeerOf(conn.peer.value);
      }
      Destroy(fd, conn);
      CloseReplaced(before, fd, conn.(phase := Closed, peer := None));
    }

    /** The peer's half of `close_connection`. */
    method ClosePeerOf(fd: Fd)
      requires fd in conns
      modifies this
      ensures View() == ClosePeer(old(View()), fd)
    {
      var peer := conns[fd];
      if !peer.phase.Closed? {
        Forget(fd, peer.phase.Established?);
      }
      Destroy(fd, peer);
    }

    method CloseBackendConnectionOnly(fd: Fd)
      requires PeersAlive()
      modifies this
      ensures View() == CloseBackendOnly(old(View()), fd)
    {
      if fd !in conns {
        return;
      }
      hide Detach, Discard;
      ghost var s := View();
      var conn, kept := conns[fd], retries;
      if conn.peer.Some? {
        conns := conns[conn.peer.value := conns[conn.peer.value].(peer := None)];
      }
      assert conns == ForgottenByPeer(s.conns, conn);
      DetachIgnoresConns(s, fd, if conn.phase.Established? then Established else Closed, conns);
      DetachIgnoresConns(s, fd, conn.phase, conns);
      DetachAsks(s, fd, conn.phase);
      Forget(fd, conn.phase.Established?);
      retries := kept;
      Destroy(fd, conn);
    }

    // -------------------------------------------------------------- connecting

    /** `BackendConnector::connect`; the client is in no table while this runs. */
    method ConnectClient(clientFd: Fd, client: Connection, retryCount: nat, attempts: seq<Attempt>, now: Time)
      modifies this
      ensures View() == Connect(old(View()), clientFd, client, retryCount, attempts, now)
      decreases |attempts|, 0
    {
      var c := client.(accounted := true);
      if attempts == [] {
        ReleaseBytes(c);
        return;
      }
      match attempts[0] {
        case NoBackend => ReleaseBytes(c);
        case NoAddress(_) => ReleaseBytes(c);
        case Pooled(node, fd) => Enter(clientFd, c, node, fd, Established, retryCount, now);
        case Immediate(node, fd) => Enter(clientFd, c, node, fd, Established, retryCount, now);
        case InProgress(node, fd) => Enter(clientFd, c, node, fd, Connecting, retryCount, now);
        case Refused(_) => RetryClient(clientFd, c, retryCount, attempts[1..], now);
      }
    }

    /** `RetryHandler::retry`, which calls back into `connect`. */
    method RetryClient(clientFd: Fd, client: Connection, retryCount: nat, attempts: seq<Attempt>, now: Time)
      modifies this
      ensures View() == Retry(old(View()), clientFd, client, retryCount, attempts, now)
      decreases |attempts|, 1
    {
      if retryCount >= MAX_RETRY_ATTEMPTS {
        ReleaseBytes(client);
        return;
      }
      ConnectClient(clientFd, client.(retriesMade := client.retriesMade + 1), retryCount + 1, attempts, now);
    }

    /** The part of `connect` after the socket is there: peers, then the tables. */
    method Enter(clientFd: Fd, client: Connection, node: NodeId, fd: Fd, phase: Phase, retryCount: nat, now: Time)
      modifies this
      ensures View() == Link(old(View()), clientFd, client, node, fd, phase, retryCount, now)
    {
      var backend := NewConnection(phase).(peer := Some(clientFd));
      if phase.Established? && node in nodes {
        nodes := nodes[node := nodes[node].Incremented()];
      }
      conns := conns[clientFd := client.(peer := Some(fd))];
      conns := conns[fd := backend];
      nodeOf := nodeOf[fd := node];
      connTimes := connTimes[fd := now];
      clientOf := clientOf[fd := clientFd];
      retries := retries[clientFd := retryCount];
    }

    /** A connect in progress has succeeded: the backend now counts against its node. */
    method EstablishBackend(fd: Fd)
      requires fd in conns
      modifies this`conns, this`nodes
      ensures View() == Establish(old(View()), fd)
    {
      conns := conns[fd := conns[fd].(phase := Established)];
      if fd in nodeOf && nodeOf[fd] in nodes {
        nodes := nodes[nodeOf[fd] := nodes[nodeOf[fd]].Incremented()];
      }
    }

    /** The handshake callback moves the client out of the table and routes it. */
    method RouteAfterHandshake(fd: Fd, attempts: seq<Attempt>, now: Time)
      requires fd in conns
      modifies this
      ensures View() == FinishHandshake(old(View()), fd, attempts, now)
    {
      var client := conns[fd].(phase := Established);
      conns := conns - {fd};
      ConnectClient(fd, client, 0, attempts, now);
    }

    method TryRetryOnBackendError(fd: Fd, attempts: seq<Attempt>, now: Time) returns (retried: bool)
      requires PeersAlive()
      requires fd in clientOf ==> clientOf[fd] != fd
      modifies this
      ensures retried == CanRetry(old(View()), fd)
      ensures View() == if retried then RetryBackend(old(View()), fd, attempts, now) else old(View())
    {
      if fd !in clientOf || clientOf[fd] !in conns {
        return false;
      }
      var clientFd := clientOf[fd];
      var retryCount := if clientFd in retries then retries[clientFd] else 0;
      CloseBackendConnectionOnly(fd);
      var client := conns[clientFd];
      conns := conns - {clientFd};
      RetryClient(clientFd, client, retryCount, attempts, now);
      return true;
    }

    // -------------------------------------------------------------- moving bytes

    /** `read_from_fd`: reserve room for a full buffer, read, give back what was not used. */
    method ReadFromFd(fd: Fd, r: ReadResult) returns (again: bool)
      requires fd in conns
      modifies this`conns, this`used
      ensures View() == Read(old(View()), fd, r)
      ensures again == ReadFrom(old(conns)[fd], old(used), limit, r).2
    {
      var c := conns[fd];
      if |c.readBuf| >= MAX_BUFFER {
        conns := conns[fd := c.(bufferFull := true)];
        return true;
      }
      c := c.(bufferFull := false);
      var room := MAX_BUFFER - |c.readBuf|;
      if c.accounted {
        var (ok, total) := MemoryBudget.TryReserve(used, limit, room);
        if !ok {
          conns := conns[fd := c.(memoryBlocked := true)];
          return true;
        }
        used := total;
      }
      if !r.Got? {
        if c.accounted {
          used := MemoryBudget.Release(used, room);
        }
        conns := conns[fd := c];
        return r.ReadWouldBlock?;
      }
      c := c.(readBuf := c.readBuf + r.bytes, received := c.received + r.bytes, memoryBlocked := false);
      if c.accounted && |r.bytes| < room {
        used := MemoryBudget.Release(used, room - |r.bytes|);
      }
      c := c.(bufferFull := |c.readBuf| >= MAX_BUFFER);
      conns := conns[fd := c];
      return true;
    }

    method WriteToFd(fd: Fd, r: WriteResult) returns (ok: bool)
      requires fd in conns && WriteFits(conns[fd], r)
      modifies this`conns, this`used
      ensures View() == Write(old(View()), fd, r)
      ensures ok == WriteTo(old(conns)[fd], old(used), r).2
      ensures old(PeersAlive()) ==> PeersAlive()
    {
      var c := conns[fd];
      if c.writeBuf == [] {
        assert conns[fd := c] == conns;
        return true;
      }
      if !r.Wrote? {
        assert conns[fd := c] == conns;
        return r.WriteWouldBlock?;
      }
      c := c.(sent := c.sent + c.writeBuf[..r.n], writeBuf := c.writeBuf[r.n..], memoryBlocked := false);
      if c.accounted {
        used := MemoryBudget.Release(used, r.n);
      }
      conns := conns[fd := c];
      return true;
    }

    /** `DataForwarder::forward` */
    method ForwardData(from: Fd, to: Fd, r: WriteResult, kernelBusy: bool, now: Time)
      requires PeersAlive()
      requires from in conns && to in conns && from != to
      requires CanForward(View(), from, to) ==> WriteFits(Shift(View(), from, to).conns[to], r)
      modifies this
      ensures View() == Forward(old(View()), from, to, r, kernelBusy, now)
    {
      hide Shift, Close;
      if !conns[from].phase.Established? || !conns[to].phase.Established? || conns[from].readBuf == [] {
        return;
      }
      var source, target := conns[from], conns[to];
      var available := if |target.writeBuf| >= MAX_BUFFER then 0 else MAX_BUFFER - |target.writeBuf|;
      var count := if |source.readBuf| <= available then |source.readBuf| else available;
      if count == 0 {
        StartTracking(from, now);
        return;
      }
      MoveBytes(from, to, count);
      var ok := WriteToFd(to, r);
      if !ok {
        CloseConnection(to);
        return;
      }
      if conns[to].writeBuf != [] || kernelBusy {
        StartTracking(from, now);
      } else {
        ClearTracking(from);
      }
    }

    /** Copies the first bytes of one side's read buffer to the other side's write buffer. */
    method MoveBytes(from: Fd, to: Fd, count: nat)
      requires from in conns && to in conns && from != to && count == Portion(conns[from], conns[to])
      modifies this`conns
      ensures View() == Shift(old(View()), from, to)
      ensures from in conns && to in conns && |conns[to].writeBuf| >= count
      ensures old(PeersAlive()) ==> PeersAlive()
    {
      hide Mutual;
      var source, target := conns[from], conns[to];
      target := target.(writeBuf := target.writeBuf + source.readBuf[..count]);
      source := source.(readBuf := source.readBuf[count..]);
      if source.bufferFull && |source.readBuf| < MAX_BUFFER {
        source := source.(bufferFull := false);
      }
      ghost var s := View();
      assert source == s.conns[from].(readBuf := s.conns[from].readBuf[count..],
                                      bufferFull := s.conns[from].bufferFull && |source.readBuf| >= MAX_BUFFER);
      conns := conns[from := source];
      conns := conns[to := target];
      ShiftKeepsMutual(s, from, to);
    }
  }

  lemma MutualStays(conns: map<Fd, Connection>, changed: map<Fd, Connection>)
    requires changed.Keys == conns.Keys && forall f :: f in conns ==> changed[f].peer == conns[f].peer
    ensures Mutual(conns) ==> Mutual(changed)
  {
  }

  lemma ShiftKeepsMutual(s: State, from: Fd, to: Fd)
    requires from in s.conns && to in s.conns && from != to
    ensures Mutual(s.conns) ==> Mutual(Shift(s, from, to).conns)
  {
    hide Mutual, Portion;
    MutualStays(s.conns, Shift(s, from, to).conns);
  }

  /** All that leaving the tables asks of a phase is whether it is established. */
  lemma DetachAsks(s: State, fd: Fd, phase: Phase)
    ensures Detach(s, fd, if phase.Established? then Established else Closed) == Detach(s, fd, phase)
  {
  }

  /** Marking the closing connection first changes nothing that is left afterwards. */
  lemma CloseReplaced(s: State, fd: Fd, marked: Connection)
    requires fd in s.conns && !s.conns[fd].phase.Closed?
    requires s.conns[fd].peer.Some? ==> s.conns[fd].peer.value in s.conns && s.conns[fd].peer.value != fd
    ensures var c := s.conns[fd];
      var t := Detach(s, fd, c.phase).(conns := s.conns[fd := marked]);
      var u := t.(clientOf := DropValue(t.clientOf, fd));
      Close(s, fd) == Discard(if c.peer.Some? then ClosePeer(u, c.peer.value) else u, fd, c)
  {
    var c := s.conns[fd];
    var t := Detach(s, fd, c.phase);
    assert t.conns == s.conns;
    hide Detach, DropValue, ReleaseFor, ClosePeer, Discard;
    var u := t.(clientOf := DropValue(t.clientOf, fd));
    DiscardReplaced(u, fd, marked, c);
    if c.peer.Some? {
      ClosePeerReplaced(u, fd, marked, c, c.peer.value);
    }
  }

  lemma DiscardReplaced(s: State, fd: Fd, marked: Connection, c: Connection)
    ensures Discard(s.(conns := s.conns[fd := marked]), fd, c) == Discard(s, fd, c)
  {
    assert s.conns[fd := marked] - {fd} == s.conns - {fd};
  }

  lemma ClosePeerReplaced(s: State, fd: Fd, marked: Connection, c: Connection, p: Fd)
    requires p in s.conns && p != fd
    ensures Discard(ClosePeer(s.(conns := s.conns[fd := marked]), p), fd, c) == Discard(ClosePeer(s, p), fd, c)
  {
    var m := s.conns[fd := marked];
    hide Detach, ReleaseFor;
    DetachIgnoresConns(s, p, s.conns[p].phase, m);
    DetachIgnoresConns(s, p, s.conns[p].phase, s.conns);
    assert m - {p} - {fd} == s.conns - {p} - {fd};
  }

  lemma DetachIgnoresConns(s: State, fd: Fd, phase: Phase, conns: map<Fd, Connection>)
    ensures Detach(s.(conns := conns), fd, phase) == Detach(s, fd, phase).(conns := conns)
  {
  }
}
