/** Whole runs of the proxy: any number of primitive steps in any order the handlers allow. */
module LifecycleRuns {
  import opened Collections
  import opened Backends
  import opened Words
  import opened Lifecycle
  import opened LifecycleInvariants
  import opened LifecycleClosing
  import opened LifecycleConnecting
  import opened LifecycleBytes

  datatype Step =
    | Accepted(fd: Fd, attempts: seq<Attempt>, now: Time)
    | AcceptedTls(fd: Fd, now: Time)
    | Rejected(fd: Fd, response: seq<Byte>, now: Time)
    | HandshakeDone(fd: Fd, attempts: seq<Attempt>, now: Time)
    | Connected(fd: Fd)
    | ConnectFailed(fd: Fd, attempts: seq<Attempt>, now: Time)
    | Closing(fd: Fd)
    | BackendClosing(fd: Fd)
    | Reading(fd: Fd, read: ReadResult)
    | Writing(fd: Fd, write: WriteResult)
    | Forwarding(from: Fd, to: Fd, write: WriteResult, kernelBusy: bool, now: Time)
    | Rewriting(fd: Fd, edited: seq<Byte>)
    | PressureStarted(fd: Fd, now: Time)
    | PressureCleared(fd: Fd)
    | PoolChanged(nodes: map<NodeId, Backend>)
    | LimitChanged(limit: nat)

  /** A pool may drop nodes without connections, add nodes nobody refers to, and change
      anything about a node but its count. */
  ghost predicate PoolMayBecome(s: State, nodes: map<NodeId, Backend>) {
    && (forall id :: id in s.nodes && id !in nodes ==> s.nodes[id].active == 0)
    && (forall id :: id in s.nodes && id in nodes ==> nodes[id].active == s.nodes[id].active)
    && (forall id :: id in nodes && id !in s.nodes ==> nodes[id].active == 0 && id !in s.nodeOf.Values)
  }

  /** When a step may happen: what the handlers check, and what the kernel guarantees. */
  ghost predicate Enabled(s: State, step: Step) {
    match step
    case Accepted(fd, attempts, _) => fd !in s.conns && AllFit(s, fd, attempts)
    case AcceptedTls(fd, _) => fd !in s.conns
    case Rejected(fd, _, _) => fd !in s.conns
    case HandshakeDone(fd, attempts, _) => fd in s.conns && s.conns[fd].phase.Handshake? && AllFit(s, fd, attempts)
    case Connected(fd) => fd in s.conns && s.conns[fd].phase.Connecting?
    case ConnectFailed(fd, attempts, _) =>
      && fd in s.clientOf && fd in s.conns && s.conns[fd].phase.Connecting?
      && AllFit(CloseBackendOnly(s, fd), s.clientOf[fd], attempts)
    case Closing(_) => true
    case BackendClosing(fd) => fd in s.clientOf
    case Reading(fd, r) => fd in s.conns && s.conns[fd].phase.Established? && ReadFits(s.conns[fd], r)
    case Writing(fd, r) => fd in s.conns && s.conns[fd].phase.Established? && WriteFits(s.conns[fd], r)
    case Forwarding(from, to, r, _, _) => MayForward(s, from, to, r)
    case Rewriting(fd, edited) => fd in s.conns && |edited| < WORD64 - MAX_LIMIT
    case PressureStarted(_, _) => true
    case PressureCleared(_) => true
    case PoolChanged(nodes) => PoolMayBecome(s, nodes)
    case LimitChanged(limit) => 0 < limit <= MAX_LIMIT
  }

  /** The effect of a step; a step that is not enabled has none. */
  ghost function Apply(s: State, step: Step): State {
    if !Enabled(s, step) then s
    else match step
      case Accepted(fd, attempts, now) => AcceptPlain(s, fd, attempts, now)
      case AcceptedTls(fd, now) => AcceptTls(s, fd, now)
      case Rejected(fd, response, now) => AcceptRejected(s, fd, response, now)
      case HandshakeDone(fd, attempts, now) => FinishHandshake(s, fd, attempts, now)
      case Connected(fd) => Establish(s, fd)
      case ConnectFailed(fd, attempts, now) =>
        if CanRetry(s, fd) && s.clientOf[fd] != fd then RetryBackend(s, fd, attempts, now) else Close(s, fd)
      case Closing(fd) => Close(s, fd)
      case BackendClosing(fd) => CloseBackendOnly(s, fd)
      case Reading(fd, r) => Read(s, fd, r)
      case Writing(fd, r) => Write(s, fd, r)
      case Forwarding(from, to, r, kernelBusy, now) => Forward(s, from, to, r, kernelBusy, now)
      case Rewriting(fd, edited) => Rewrite(s, fd, edited)
      case PressureStarted(fd, now) => StartPressure(s, fd, now)
      case PressureCleared(fd) => ClearPressure(s, fd)
      case PoolChanged(nodes) => s.(nodes := nodes)
      case LimitChanged(limit) => s.(limit := limit)
  }

  ghost function Run(s: State, steps: seq<Step>): State
    decreases |steps|
  {
    if steps == [] then s else Run(Apply(s, steps[0]), steps[1..])
  }

  /** The proxy before its first client: no connections, no counts. */
  ghost predicate Fresh(s: State) {
    && s.conns == map[] && s.nodeOf == map[] && s.clientOf == map[] && s.pressure == map[]
    && s.gauge == 0 && s.used == 0 && 0 < s.limit <= MAX_LIMIT
    && (forall id :: id in s.nodes ==> s.nodes[id].active == 0)
  }

  // ---------------------------------------------------------------- the remaining steps

  lemma {:induction false} FreshIsInOrder(s: State)
    requires Fresh(s)
    ensures Inv(s, 0) && Streams(s)
  {
    assert forall id :: Holders(s, id) == {};
  }

  lemma EstablishHolders(s: State, f: Fd, id: NodeId)
    requires f in s.conns && s.conns[f].phase.Connecting?
    ensures f !in Holders(s, id)
    ensures Holders(Establish(s, f), id) ==
      if f in s.nodeOf && s.nodeOf[f] == id then Holders(s, id) + {f} else Holders(s, id)
  {
  }

  lemma EstablishKeepsCounts(s: State, f: Fd)
    requires Counted(s) && f in s.conns && s.conns[f].phase.Connecting?
    ensures Counted(Establish(s, f))
  {
    var t := Establish(s, f);
    hide Holders;
    forall id | id in t.nodes
      ensures t.nodes[id].active == |Holders(t, id)|
    {
      EstablishHolders(s, f, id);
    }
  }

  lemma EstablishKeepsSound(s: State, f: Fd)
    requires Sound(s) && f in s.conns && s.conns[f].phase.Connecting?
    ensures Sound(Establish(s, f))
  {
    SoundAt(s, f);
    assert ConnectionOk(s.conns[f].(phase := Established), f in s.clientOf);
    hide ConnectionOk;
  }

  lemma EstablishKeepsLinks(s: State, f: Fd)
    requires Linked(s) && RetriesRecorded(s) && f in s.conns
    ensures Linked(Establish(s, f)) && RetriesRecorded(Establish(s, f))
  {
    hide Linked, RetriesRecorded;
    SameLinksKeepLinks(s, Establish(s, f));
  }

  lemma EstablishKeepsBudget(s: State, f: Fd)
    requires Budgeted(s, 0) && f in s.conns
    ensures Budgeted(Establish(s, f), 0)
  {
    hide Footprint;
    FootprintUpdate(s.conns, f, s.conns[f].(phase := Established));
  }

  lemma EstablishKeepsInv(s: State, f: Fd)
    requires Inv(s, 0) && f in s.conns && s.conns[f].phase.Connecting?
    ensures Inv(Establish(s, f), 0)
  {
    PressureOnly(s, Establish(s, f));
    hide Linked, Sound, RetriesRecorded, Counted, Budgeted, Gauged, Establish;
    EstablishKeepsLinks(s, f);
    EstablishKeepsSound(s, f);
    EstablishKeepsCounts(s, f);
    EstablishKeepsBudget(s, f);
  }

  lemma PhaseCarries(c: Connection, d: Connection)
    requires d == c.(phase := d.phase)
    ensures forall e :: Carried(d, e) == Carried(c, e) && Carried(e, d) == Carried(e, c)
  {
  }

  lemma EstablishKeepsStreams(s: State, f: Fd)
    requires Linked(s) && Streams(s) && f in s.conns && s.conns[f].phase.Connecting?
    ensures Streams(Establish(s, f))
  {
    hide Linked, IncrementNode;
    var t, d := Establish(s, f), s.conns[f].(phase := Established);
    PhaseCarries(s.conns[f], d);
    hide Carried;
    StreamAt(s, f);
    assert StreamOk(d);
    hide StreamOk;
    forall b | b in t.clientOf
      ensures b in t.conns && t.clientOf[b] in t.conns
      ensures Carried(t.conns[t.clientOf[b]], t.conns[b]) && Carried(t.conns[b], t.conns[t.clientOf[b]])
    {
      OldPair(s, b);
    }
  }

  ghost function WithLone(s: State, f: Fd, c: Connection, now: Time): State {
    s.(conns := s.conns[f := c], connTimes := s.connTimes[f := now])
  }

  lemma LoneArrivalKeepsLinks(s: State, f: Fd, c: Connection, now: Time)
    requires Linked(s) && f !in s.conns && c.peer.None?
    ensures Linked(WithLone(s, f, c, now))
  {
    var t := WithLone(s, f, c, now);
    hide Linked;
    SameKeys(s);
    NewPairIsApart(s, f, f);
    forall b | b in t.clientOf
      ensures b in t.conns && t.clientOf[b] in t.conns && t.clientOf[b] !in t.clientOf
      ensures t.conns[b].peer == Some(t.clientOf[b]) && t.conns[t.clientOf[b]].peer == Some(b)
    {
      OldPair(s, b);
    }
    forall g | g in t.conns && g !in t.clientOf && t.conns[g].peer.Some?
      ensures t.conns[g].peer.value in t.clientOf && t.clientOf[t.conns[g].peer.value] == g
    {
      LoneOrClient(s, g);
    }
    LinkedBy(t);
  }

  lemma LoneArrivalKeepsRest(s: State, f: Fd, c: Connection, now: Time)
    requires Sound(s) && f !in s.conns && f !in s.clientOf && ConnectionOk(c, false)
    requires forall b :: b in s.clientOf ==> s.clientOf[b] != f
    ensures Sound(WithLone(s, f, c, now))
    ensures RetriesRecorded(s) ==> RetriesRecorded(WithLone(s, f, c, now))
    ensures Streams(s) && StreamOk(c) ==> Streams(WithLone(s, f, c, now))
  {
    hide ConnectionOk, StreamOk, Carried;
  }

  lemma LoneArrivalKeepsBudget(s: State, f: Fd, c: Connection, now: Time)
    requires Budgeted(s, 0) && f !in s.conns && AccountedSize(c) == 0
    ensures Budgeted(WithLone(s, f, c, now), 0)
  {
    hide Footprint;
    FootprintUpdate(s.conns, f, c);
  }

  /** A connection without a peer joins the table. */
  lemma LoneArrival(s: State, f: Fd, c: Connection, now: Time)
    requires Inv(s, 0) && f !in s.conns && c.peer.None? && ConnectionOk(c, false) && AccountedSize(c) == 0
    ensures Inv(WithLone(s, f, c, now), 0)
    ensures Streams(s) && StreamOk(c) ==> Streams(WithLone(s, f, c, now))
  {
    var t := WithLone(s, f, c, now);
    hide Linked, Sound, RetriesRecorded, Counted, Budgeted, Gauged, Streams, StreamOk, ConnectionOk, AccountedSize;
    NewPairIsApart(s, f, f);
    SameKeys(s);
    LoneArrivalKeepsLinks(s, f, c, now);
    LoneArrivalKeepsRest(s, f, c, now);
    LoneArrivalKeepsBudget(s, f, c, now);
    SamePhasesKeepCounts(s, t);
    PressureOnly(s, t);
  }

  /** A client in a TLS handshake, and a rejected client waiting for its error response. */
  lemma ArrivalsKeepInv(s: State, f: Fd, response: seq<Byte>, now: Time)
    requires Inv(s, 0) && f !in s.conns
    ensures Inv(AcceptTls(s, f, now), 0) && Inv(AcceptRejected(s, f, response, now), 0)
    ensures Streams(s) ==> Streams(AcceptTls(s, f, now)) && Streams(AcceptRejected(s, f, response, now))
  {
    hide Inv, Streams;
    LoneArrival(s, f, NewConnection(Handshake), now);
    LoneArrival(s, f, NewConnection(Established).(accounted := false, writeBuf := response), now);
  }

  lemma AcceptKeepsInv(s: State, f: Fd, attempts: seq<Attempt>, now: Time)
    requires Inv(s, 0) && f !in s.conns && AllFit(s, f, attempts)
    ensures Inv(AcceptPlain(s, f, attempts, now), 0)
    ensures Streams(s) ==> Streams(AcceptPlain(s, f, attempts, now))
  {
    hide Inv, Streams, Connect, AllFit;
    var t := s.(connTimes := s.connTimes[f := now]);
    var c := NewConnection(Established);
    assert c.Size() == 0 && Ready(c, 0) && Waiting(c);
    hide Ready, Waiting;
    ClockKeepsInv(s, f, now);
    FewerConnections(s, t, f, attempts);
    ConnectKeepsInv(t, f, c, 0, attempts, now);
    if Streams(s) {
      ConnectKeepsStreams(t, f, c, 0, attempts, now);
    }
  }

  lemma ClockKeepsInv(s: State, f: Fd, now: Time)
    requires Inv(s, 0)
    ensures var t := s.(connTimes := s.connTimes[f := now]); Inv(t, 0) && (Streams(s) ==> Streams(t))
  {
    hide Linked, Sound, RetriesRecorded, Counted, Budgeted, Streams;
    SideKeepsInv(s, s.(connTimes := s.connTimes[f := now]));
  }

  lemma HandshakeKeepsInv(s: State, f: Fd, attempts: seq<Attempt>, now: Time)
    requires Inv(s, 0) && f in s.conns && s.conns[f].phase.Handshake? && AllFit(s, f, attempts)
    ensures Inv(FinishHandshake(s, f, attempts, now), 0)
    ensures Streams(s) ==> Streams(FinishHandshake(s, f, attempts, now))
  {
    var t, c := s.(conns := s.conns - {f}), s.conns[f].(phase := Established);
    SoundAt(s, f);
    assert f !in s.clientOf && c.peer.None? && s.conns[f].accounted && c.Size() == s.conns[f].Size() && Ready(c, 0);
    hide Connect, Linked, Sound, RetriesRecorded, Counted, Budgeted, Gauged, Ready;
    TakeOutKeepsInv(s, f);
    FewerConnections(s, t, f, attempts);
    ConnectKeepsInv(t, f, c, 0, attempts, now);
    if Streams(s) {
      StreamAt(s, f);
      assert Waiting(c);
      hide Streams, Waiting;
      LoneIsUnmapped(s, f);
      TakeOutKeepsStreams(s, t, f);
      ConnectKeepsStreams(t, f, c, 0, attempts, now);
    }
  }

  lemma PoolChangeKeepsInv(s: State, nodes: map<NodeId, Backend>)
    requires Inv(s, 0) && PoolMayBecome(s, nodes)
    ensures Inv(s.(nodes := nodes), 0)
    ensures Streams(s) ==> Streams(s.(nodes := nodes))
  {
    var t := s.(nodes := nodes);
    forall id | id in nodes
      ensures nodes[id].active == |Holders(t, id)|
    {
      assert Holders(t, id) == Holders(s, id);
      if id !in s.nodes {
        assert Holders(s, id) == {};
      }
    }
    hide Linked, Sound, RetriesRecorded, Budgeted, Streams, PoolMayBecome;
    SameTables(s, t);
    BudgetOnly(s, t);
  }

  /** A removed node has no established connection that refers to it. */
  lemma RemovedNodesAreIdle(s: State, nodes: map<NodeId, Backend>, id: NodeId)
    requires Inv(s, 0) && PoolMayBecome(s, nodes) && id in s.nodes && id !in nodes
    ensures Holders(s, id) == {}
  {
  }

  lemma LimitKeepsInv(s: State, limit: nat)
    requires Inv(s, 0) && 0 < limit <= MAX_LIMIT
    ensures Inv(s.(limit := limit), 0)
    ensures Streams(s) ==> Streams(s.(limit := limit))
  {
    var t := s.(limit := limit);
    hide Linked, Sound, RetriesRecorded, Counted, Streams, Footprint;
    SameTables(s, t);
    SamePhasesKeepCounts(s, t);
  }

  // ---------------------------------------------------------------- every step, every run

  /** The steps that change which connections exist. */
  predicate IsRouting(step: Step) {
    step.Accepted? || step.AcceptedTls? || step.Rejected? || step.HandshakeDone? || step.Connected?
    || step.ConnectFailed? || step.Closing? || step.BackendClosing?
  }

  lemma RoutingStepKeepsInv(s: State, step: Step)
    requires Inv(s, 0) && Enabled(s, step) && IsRouting(step)
    ensures Inv(Apply(s, step), 0)
  {
    hide Inv, AcceptPlain, AcceptTls, AcceptRejected, FinishHandshake, Establish, RetryBackend, Close,
        CloseBackendOnly, AllFit, CanRetry;
    match step
    case Accepted(fd, attempts, now) => AcceptKeepsInv(s, fd, attempts, now);
    case AcceptedTls(fd, now) => ArrivalsKeepInv(s, fd, [], now);
    case Rejected(fd, response, now) => ArrivalsKeepInv(s, fd, response, now);
    case HandshakeDone(fd, attempts, now) => HandshakeKeepsInv(s, fd, attempts, now);
    case Connected(fd) => EstablishKeepsInv(s, fd);
    case ConnectFailed(fd, attempts, now) => RetryBackendKeepsInv(s, fd, attempts, now);
    case Closing(fd) => CloseKeepsInv(s, fd);
    case BackendClosing(fd) => BackendOnlyKeepsInv(s, fd);
  }

  lemma ByteStepKeepsInv(s: State, step: Step)
    requires Inv(s, 0) && Enabled(s, step) && !IsRouting(step)
    ensures Inv(Apply(s, step), 0)
  {
    hide Inv, Read, Write, Forward, Rewrite, StartPressure, ClearPressure, PoolMayBecome, MayForward;
    match step
    case Reading(fd, r) => ReadKeepsInv(s, fd, r);
    case Writing(fd, r) => WriteKeepsInv(s, fd, r);
    case Forwarding(from, to, r, kernelBusy, now) => ForwardKeepsInv(s, from, to, r, kernelBusy, now);
    case Rewriting(fd, edited) => RewriteKeepsInv(s, fd, edited);
    case PressureStarted(fd, now) => PressureKeepsInv(s, fd, now);
    case PressureCleared(fd) => PressureKeepsInv(s, fd, 0);
    case PoolChanged(nodes) => PoolChangeKeepsInv(s, nodes);
    case LimitChanged(limit) => LimitKeepsInv(s, limit);
  }

  lemma StepKeepsInv(s: State, step: Step)
    requires Inv(s, 0)
    ensures Inv(Apply(s, step), 0)
  {
    if Enabled(s, step) {
      hide Inv, Enabled, Apply;
      if IsRouting(step) {
        RoutingStepKeepsInv(s, step);
      } else {
        ByteStepKeepsInv(s, step);
      }
    }
  }

  lemma RoutingStepKeepsStreams(s: State, step: Step)
    requires Inv(s, 0) && Streams(s) && Enabled(s, step) && IsRouting(step)
    ensures Streams(Apply(s, step))
  {
    hide Linked, Sound, Streams, RetriesRecorded, Counted, Gauged, Budgeted;
    assert Linked(s) && Sound(s);
    hide Inv, AcceptPlain, AcceptTls, AcceptRejected, FinishHandshake, Establish, RetryBackend, Close,
        CloseBackendOnly, AllFit, CanRetry;
    match step
    case Accepted(fd, attempts, now) => AcceptKeepsInv(s, fd, attempts, now);
    case AcceptedTls(fd, now) => ArrivalsKeepInv(s, fd, [], now);
    case Rejected(fd, response, now) => ArrivalsKeepInv(s, fd, response, now);
    case HandshakeDone(fd, attempts, now) => HandshakeKeepsInv(s, fd, attempts, now);
    case Connected(fd) => EstablishKeepsStreams(s, fd);
    case ConnectFailed(fd, attempts, now) => RetryBackendKeepsInv(s, fd, attempts, now);
    case Closing(fd) => CloseKeepsStreams(s, fd);
    case BackendClosing(fd) => BackendOnlyKeepsStreams(s, fd);
  }

  lemma ByteStepKeepsStreams(s: State, step: Step)
    requires Inv(s, 0) && Streams(s) && Enabled(s, step) && !IsRouting(step) && !step.Rewriting?
    ensures Streams(Apply(s, step))
  {
    assert Linked(s) && Sound(s) && Budgeted(s, 0);
    hide Inv, Linked, Sound, Budgeted, Streams, Read, Write, Forward, StartPressure, ClearPressure,
        PoolMayBecome, MayForward;
    match step
    case Reading(fd, r) => ReadKeepsStreams(s, fd, r);
    case Writing(fd, r) => WriteKeepsStreams(s, fd, r);
    case Forwarding(from, to, r, kernelBusy, now) => ForwardKeepsStreams(s, from, to, r, kernelBusy, now);
    case PressureStarted(fd, now) => PressureKeepsInv(s, fd, now);
    case PressureCleared(fd) => PressureKeepsInv(s, fd, 0);
    case PoolChanged(nodes) => PoolChangeKeepsInv(s, nodes);
    case LimitChanged(limit) => LimitKeepsInv(s, limit);
  }

  lemma StepKeepsStreams(s: State, step: Step)
    requires Inv(s, 0) && Streams(s) && !step.Rewriting?
    ensures Streams(Apply(s, step))
  {
    if Enabled(s, step) {
      hide Inv, Streams, Enabled, Apply;
      if IsRouting(step) {
        RoutingStepKeepsStreams(s, step);
      } else {
        ByteStepKeepsStreams(s, step);
      }
    }
  }

  lemma {:induction false} RunKeepsInv(s: State, steps: seq<Step>)
    requires Inv(s, 0)
    ensures Inv(Run(s, steps), 0)
    decreases |steps|
  {
    hide Inv, Apply;
    if steps != [] {
      StepKeepsInv(s, steps[0]);
      RunKeepsInv(Apply(s, steps[0]), steps[1..]);
    }
  }

  /** No step of the run edits a read buffer: the proxy is in TCP mode. */
  ghost predicate TcpOnly(steps: seq<Step>) {
    forall step :: step in steps ==> !step.Rewriting?
  }

  lemma {:induction false} RunKeepsStreams(s: State, steps: seq<Step>)
    requires Inv(s, 0) && Streams(s) && TcpOnly(steps)
    ensures Streams(Run(s, steps))
    decreases |steps|
  {
    hide Inv, Streams, Apply;
    if steps != [] {
      StepKeepsInv(s, steps[0]);
      StepKeepsStreams(s, steps[0]);
      RunKeepsStreams(Apply(s, steps[0]), steps[1..]);
    }
  }

  // ---------------------------------------------------------------- the main theorems

  /** In every reachable state the maps, peers, phases, retry counts, node counts, gauge and
      budget agree. */
  lemma ProxyStaysConsistent(start: State, steps: seq<Step>)
    requires Fresh(start)
    ensures Inv(Run(start, steps), 0)
  {
    FreshIsInOrder(start);
    RunKeepsInv(start, steps);
  }

  /** In every reachable state two backends never have the same client, a client is nobody's
      backend, and each side of a pair finds the other. */
  lemma PairsAreDisjoint(start: State, steps: seq<Step>, a: Fd, b: Fd)
    requires Fresh(start) && a in Run(start, steps).clientOf && b in Run(start, steps).clientOf
    ensures var s := Run(start, steps);
      && (s.clientOf[a] == s.clientOf[b] ==> a == b)
      && s.clientOf[a] != b
      && a in s.nodeOf && a in s.conns && s.clientOf[a] in s.conns
      && s.conns[a].peer == Some(s.clientOf[a]) && s.conns[s.clientOf[a]].peer == Some(a)
  {
    ProxyStaysConsistent(start, steps);
    var s := Run(start, steps);
    hide Run, Fresh, Linked, Sound, RetriesRecorded, Counted, Gauged, Budgeted;
    SameKeys(s);
    OldPair(s, a);
    OldPair(s, b);
  }

  /** In every reachable state a connection that is closed leaves no trace: neither it nor its
      peer is a key of any map or anybody's client, and nobody else is touched. */
  lemma ClosingLeavesNoTrace(start: State, steps: seq<Step>, fd: Fd)
    requires Fresh(start)
    ensures var s := Run(start, steps);
      var t, gone := Close(s, fd), Pair(s, fd);
      && Removed(s, t, gone)
      && (fd in s.conns ==> fd in gone)
      && (forall b :: b in t.clientOf ==> t.clientOf[b] !in gone)
  {
    ProxyStaysConsistent(start, steps);
    var s := Run(start, steps);
    hide Run, Close;
    CloseRemovesPair(s, fd);
    PairIsWhole(s, fd);
  }

  /** In every reachable state both clamps are idle: an established backend's node has a
      positive count, and the budget covers the bytes of every accounted connection. */
  lemma ClampsNeverFire(start: State, steps: seq<Step>, fd: Fd)
    requires Fresh(start) && fd in Run(start, steps).conns
    ensures var s := Run(start, steps);
      && (fd in s.nodeOf && s.nodeOf[fd] in s.nodes && s.conns[fd].phase.Established? ==>
            s.nodes[s.nodeOf[fd]].active > 0)
      && (s.conns[fd].accounted ==> s.conns[fd].Size() <= s.used)
  {
    ProxyStaysConsistent(start, steps);
    var s := Run(start, steps);
    hide Run, Linked, Sound, RetriesRecorded, Footprint;
    FootprintHolds(s.conns, fd);
    if fd in s.nodeOf && s.nodeOf[fd] in s.nodes && s.conns[fd].phase.Established? {
      assert fd in Holders(s, s.nodeOf[fd]);
    }
  }

  /** TCP mode loses, duplicates and reorders nothing, at every moment of every run: what was
      read from one side of a pair has been written to the other or waits in between, in order,
      and all four buffers are bounded. */
  lemma TcpCarriesEveryByte(start: State, steps: seq<Step>, b: Fd)
    requires Fresh(start) && TcpOnly(steps) && b in Run(start, steps).clientOf
    ensures var s := Run(start, steps);
      var c := s.clientOf[b];
      && b in s.conns && c in s.conns
      && s.conns[c].received == s.conns[b].sent + s.conns[b].writeBuf + s.conns[c].readBuf
      && s.conns[b].received == s.conns[c].sent + s.conns[c].writeBuf + s.conns[b].readBuf
      && |s.conns[c].readBuf| <= MAX_BUFFER && |s.conns[c].writeBuf| <= MAX_BUFFER
      && |s.conns[b].readBuf| <= MAX_BUFFER && |s.conns[b].writeBuf| <= MAX_BUFFER
  {
    hide Run, Fresh, Streams, Linked, Sound, RetriesRecorded, Counted, Gauged, Budgeted;
    FreshIsInOrder(start);
    RunKeepsStreams(start, steps);
    ProxyStaysConsistent(start, steps);
    var s := Run(start, steps);
    var c := s.clientOf[b];
    OldPair(s, b);
    BothCarry(s, b);
    SoundAt(s, b);
    SoundAt(s, c);
    StreamAt(s, b);
    StreamAt(s, c);
  }

  /** In every reachable state, retrying a backend that is still connecting either gives the
      client up or routes it again with every byte it has, at most three times in all. */
  lemma RetryKeepsUnreadBytes(start: State, steps: seq<Step>, b: Fd, attempts: seq<Attempt>, now: Time)
    requires Fresh(start)
    requires var s := Run(start, steps);
      && b in s.clientOf && b in s.conns && s.conns[b].phase.Connecting?
      && AllFit(CloseBackendOnly(s, b), s.clientOf[b], attempts)
    ensures var s := Run(start, steps);
      && CanRetry(s, b) && s.clientOf[b] != b
      && RoutedAgain(s, RetryBackend(s, b, attempts, now), s.clientOf[b])
  {
    ProxyStaysConsistent(start, steps);
    var s := Run(start, steps);
    hide Run, RetryBackend, CloseBackendOnly;
    RetryBackendRoutes(s, b, attempts, now);
  }
}
