/** What the operations on the tables achieve, said without saying how. */
module LifecycleEffects {
  import opened Collections
  import opened Backends
  import opened Lifecycle
  import opened LifecycleInvariants
  import opened LifecycleClosing
  import opened LifecycleConnecting
  import opened LifecycleBytes

  function Min(a: nat, b: nat): nat { if a <= b then a else b }

  // ---------------------------------------------------------------- reading and writing

  /** The budget has no room for a read that fills the buffer. */
  ghost predicate OutOfBudget(c: Connection, used: nat, limit: nat) {
    c.accounted && |c.readBuf| < MAX_BUFFER && used + (MAX_BUFFER - |c.readBuf|) > limit
  }

  /** What a read adds to the buffer. */
  ghost function Fetched(c: Connection, used: nat, limit: nat, r: ReadResult): seq<Byte> {
    if r.Got? && |c.readBuf| < MAX_BUFFER && !OutOfBudget(c, used, limit) then r.bytes else []
  }

  /** A read reports the end exactly when the kernel does and it got to ask; it is blocked exactly
      when the budget is, or was and nothing has been read since; and it notes a full buffer. */
  lemma ReadEffect(c: Connection, used: nat, limit: nat, r: ReadResult)
    requires used <= MAX_LIMIT && 0 < limit <= MAX_LIMIT && ReadFits(c, r)
    ensures var (d, u, again) := ReadFrom(c, used, limit, r);
      var asked := |c.readBuf| < MAX_BUFFER && !OutOfBudget(c, used, limit);
      && (again <==> !(asked && r.ReadStopped?))
      && (d.memoryBlocked <==> OutOfBudget(c, used, limit) || (c.memoryBlocked && !(asked && r.Got?)))
      && (d.bufferFull <==> |d.readBuf| >= MAX_BUFFER)
      && d.readBuf == c.readBuf + Fetched(c, used, limit, r)
      && d.received == c.received + Fetched(c, used, limit, r)
      && d == c.(readBuf := d.readBuf, received := d.received,
                 memoryBlocked := d.memoryBlocked, bufferFull := d.bufferFull)
  {
    if |c.readBuf| < MAX_BUFFER {
      ReserveIsExact(used, limit, MAX_BUFFER - |c.readBuf|);
    }
    assert c.readBuf + [] == c.readBuf && c.received + [] == c.received;
  }

  /** A write sends exactly what the kernel took, and fails exactly when the kernel does and there
      was something to send. */
  lemma WriteEffect(c: Connection, used: nat, r: WriteResult)
    requires WriteFits(c, r)
    ensures var (d, u, ok) := WriteTo(c, used, r);
      var n := if r.Wrote? then r.n else 0;
      && (ok <==> c.writeBuf == [] || !r.WriteFailed?)
      && d.sent == c.sent + c.writeBuf[..n] && d.writeBuf == c.writeBuf[n..]
      && d == c.(sent := d.sent, writeBuf := d.writeBuf, memoryBlocked := d.memoryBlocked)
      && (d.memoryBlocked <==> c.memoryBlocked && (c.writeBuf == [] || !r.Wrote?))
  {
    assert c.sent + [] == c.sent;
  }

  /** A rewrite puts the edited text in place of the buffer exactly when the budget has room for it. */
  lemma RewriteEffect(c: Connection, used: nat, limit: nat, edited: seq<Byte>)
    requires used <= MAX_LIMIT && 0 < limit <= MAX_LIMIT && |edited| < MAX_LIMIT
    ensures var (d, u) := RewriteIn(c, used, limit, edited);
      var fits := !c.accounted || |edited| <= |c.readBuf| || used + (|edited| - |c.readBuf|) <= limit;
      && d.readBuf == (if fits then edited else c.readBuf)
      && (!fits ==> d.memoryBlocked && u == used)
  {
    if |edited| > |c.readBuf| {
      ReserveIsExact(used, limit, |edited| - |c.readBuf|);
    }
  }

  // ---------------------------------------------------------------- backpressure

  /** Tracking starts once and keeps its first time; clearing ends it; nobody else is touched. */
  lemma PressureEffect(s: State, f: Fd, now: Time)
    ensures var t := StartPressure(s, f, now);
      && t == s.(pressure := t.pressure, gauge := t.gauge)
      && t.pressure == (if f in s.pressure then s.pressure else s.pressure[f := now])
    ensures var t := ClearPressure(s, f);
      && t == s.(pressure := t.pressure, gauge := t.gauge)
      && t.pressure == s.pressure - {f}
  {
    if f !in s.pressure {
      MinusAbsent(s.pressure, f);
    }
  }

  // ---------------------------------------------------------------- forwarding

  /** The first of these bytes, as many as find room on the other side. */
  function Fitting(bytes: seq<Byte>, to: Connection): seq<Byte> {
    if |to.writeBuf| >= MAX_BUFFER then [] else bytes[..Min(|bytes|, MAX_BUFFER - |to.writeBuf|)]
  }

  function Moved(from: Connection, to: Connection): seq<Byte> {
    Fitting(from.readBuf, to)
  }

  /** The pair goes on: what has been moved is behind what was there, what is left over found the
      other side full, and the source is tracked exactly when the other side has bytes to send. */
  ghost predicate Passed(s: State, t: State, from: Fd, to: Fd, moved: seq<Byte>, kernelBusy: bool)
    requires from in s.conns && to in s.conns
  {
    && t == s.(conns := t.conns, pressure := t.pressure, gauge := t.gauge, used := t.used)
    && t.conns.Keys == s.conns.Keys
    && (forall f :: f in s.conns && f != from && f != to ==> t.conns[f] == s.conns[f])
    && s.conns[from].readBuf == moved + t.conns[from].readBuf
    && t.conns[to].sent + t.conns[to].writeBuf == s.conns[to].sent + s.conns[to].writeBuf + moved
    && (t.conns[from].readBuf == [] || |s.conns[to].writeBuf| + |moved| == MAX_BUFFER)
    && (from in t.pressure <==> moved == [] || t.conns[to].writeBuf != [] || kernelBusy)
    && (moved != [] ==>
          (t.conns[from].bufferFull <==> s.conns[from].bufferFull && |t.conns[from].readBuf| >= MAX_BUFFER))
    && SameRole(s.conns[from], t.conns[from]) && t.conns[from].writeBuf == s.conns[from].writeBuf
    && SameRole(s.conns[to], t.conns[to]) && t.conns[to].readBuf == s.conns[to].readBuf
  }

  /** Between established peers a forward moves as much as fits. The pair closes exactly when
      something was moved and its write failed. */
  lemma ForwardDelivers(s: State, from: Fd, to: Fd, r: WriteResult, kernelBusy: bool, now: Time)
    requires Inv(s, 0) && MayForward(s, from, to, r) && CanForward(s, from, to)
    ensures var t, moved := Forward(s, from, to, r, kernelBusy, now), Moved(s.conns[from], s.conns[to]);
      && (moved == [] <==> |s.conns[to].writeBuf| == MAX_BUFFER)
      && if moved != [] && r.WriteFailed? then t.conns == s.conns - {from, to}
         else Passed(s, t, from, to, moved, kernelBusy)
  {
    PeersAreBounded(s, from, to);
    assert Moved(s.conns[from], s.conns[to]) == [] <==> |s.conns[to].writeBuf| == MAX_BUFFER;
    hide Inv, Forward, Passed, Moved;
    if Moved(s.conns[from], s.conns[to]) == [] {
      ForwardStuck(s, from, to, r, kernelBusy, now);
    } else if r.WriteFailed? {
      ForwardFailure(s, from, to, r, kernelBusy, now);
    } else {
      ForwardSuccess(s, from, to, r, kernelBusy, now);
    }
  }

  lemma ForwardStuck(s: State, from: Fd, to: Fd, r: WriteResult, kernelBusy: bool, now: Time)
    requires MayForward(s, from, to, r) && CanForward(s, from, to) && |s.conns[to].writeBuf| == MAX_BUFFER
    ensures Passed(s, Forward(s, from, to, r, kernelBusy, now), from, to, [], kernelBusy)
  {
    var a, b := s.conns[from], s.conns[to];
    assert a.readBuf == [] + a.readBuf && b.sent + b.writeBuf == b.sent + b.writeBuf + [];
    hide Shift, Write, Close;
    PressureEffect(s, from, now);
    hide StartPressure;
  }

  lemma PeersAreBounded(s: State, from: Fd, to: Fd)
    requires Inv(s, 0) && from in s.conns && to in s.conns && s.conns[from].peer == Some(to)
    ensures |s.conns[to].writeBuf| <= MAX_BUFFER
  {
    hide Linked, Counted, Gauged, Budgeted, RetriesRecorded;
    InvPeer(s, from);
    SoundAt(s, to);
  }

  lemma InvPeer(s: State, f: Fd)
    requires Linked(s) && Sound(s) && f in s.conns && s.conns[f].peer.Some?
    ensures var p := s.conns[f].peer.value;
      p in s.conns && p != f && s.conns[p].peer == Some(f)
  {
    hide Linked, Sound;
    PeerFacts(s, f);
  }

  lemma ShiftEffect(s: State, from: Fd, to: Fd)
    requires from in s.conns && to in s.conns && from != to && Moved(s.conns[from], s.conns[to]) != []
    ensures var t, moved := Shift(s, from, to), Moved(s.conns[from], s.conns[to]);
      var a, b := s.conns[from], s.conns[to];
      && t == s.(conns := s.conns[from := t.conns[from]][to := t.conns[to]])
      && t.conns[from] == a.(readBuf := a.readBuf[|moved|..], bufferFull := t.conns[from].bufferFull)
      && t.conns[to] == b.(writeBuf := b.writeBuf + moved)
      && Portion(a, b) == |moved|
      && (t.conns[from].readBuf == [] || |b.writeBuf + moved| == MAX_BUFFER)
      && (t.conns[from].bufferFull <==> a.bufferFull && |t.conns[from].readBuf| >= MAX_BUFFER)
  {
  }

  lemma ForwardSuccess(s: State, from: Fd, to: Fd, r: WriteResult, kernelBusy: bool, now: Time)
    requires from in s.conns && to in s.conns && from != to && Moved(s.conns[from], s.conns[to]) != []
    requires CanForward(s, from, to) && WriteFits(Shift(s, from, to).conns[to], r) && !r.WriteFailed?
    ensures Passed(s, Forward(s, from, to, r, kernelBusy, now), from, to, Moved(s.conns[from], s.conns[to]), kernelBusy)
  {
    var a := s.conns[from];
    assert a.readBuf == Moved(a, s.conns[to]) + a.readBuf[|Moved(a, s.conns[to])|..];
    hide Shift, Write, Portion, StartPressure, ClearPressure, Moved;
    ShiftEffect(s, from, to);
    var u := Shift(s, from, to);
    WriteSends(u, to, r);
    var v := Write(u, to, r);
    PressureEffect(v, from, now);
    assert v.conns[from] == u.conns[from];
    var b, moved := s.conns[to], Moved(s.conns[from], s.conns[to]);
    assert b.sent + (b.writeBuf + moved) == b.sent + b.writeBuf + moved;
  }

  /** A write that does not fail changes one connection, and what it sends it takes from its buffer. */
  lemma WriteSends(s: State, to: Fd, r: WriteResult)
    requires to in s.conns && WriteFits(s.conns[to], r)
    ensures var t := Write(s, to, r);
      && t == s.(conns := s.conns[to := t.conns[to]], used := t.used)
      && t.conns[to].sent + t.conns[to].writeBuf == s.conns[to].sent + s.conns[to].writeBuf
      && SameRole(s.conns[to], t.conns[to]) && t.conns[to].readBuf == s.conns[to].readBuf
  {
    var c, n := s.conns[to], if r.Wrote? then r.n else 0;
    WriteEffect(c, s.used, r);
    hide WriteTo;
    assert c.sent + c.writeBuf[..n] + c.writeBuf[n..] == c.sent + c.writeBuf;
  }

  lemma ForwardFailure(s: State, from: Fd, to: Fd, r: WriteResult, kernelBusy: bool, now: Time)
    requires Inv(s, 0) && MayForward(s, from, to, r) && Moved(s.conns[from], s.conns[to]) != []
    requires CanForward(s, from, to) && r.WriteFailed?
    ensures Forward(s, from, to, r, kernelBusy, now).conns == s.conns - {from, to}
  {
    hide Linked, Sound, RetriesRecorded, Counted, Gauged, Budgeted, Close;
    ShiftEffect(s, from, to);
    ShiftKeepsInv(s, from, to);
    var u := Shift(s, from, to);
    hide Shift;
    WriteKeepsInv(u, to, r);
    var v := Write(u, to, r);
    assert v.conns[to].peer == s.conns[to].peer && v.conns.Keys == s.conns.Keys;
    assert forall f :: f in s.conns && f != from && f != to ==> v.conns[f] == s.conns[f];
    hide Write;
    InvPeer(s, from);
    CloseRemovesPair(v, to);
    assert Pair(v, to) == {from, to};
    assert v.conns - {from, to} == s.conns - {from, to};
  }

  // ---------------------------------------------------------------- connecting

  /** The first attempt that is not refused at once. */
  function FirstReached(attempts: seq<Attempt>): (i: nat)
    ensures i <= |attempts|
    ensures i < |attempts| ==> !attempts[i].Refused?
    ensures forall j :: 0 <= j < i ==> attempts[j].Refused?
  {
    if attempts == [] || !attempts[0].Refused? then 0 else 1 + FirstReached(attempts[1..])
  }

  predicate Connects(a: Attempt) {
    a.Pooled? || a.Immediate? || a.InProgress?
  }

  /** A connect in progress is still to succeed. */
  function PhaseOf(a: Attempt): Phase {
    if a.InProgress? then Connecting else Established
  }

  /** The same nodes, but this one has one more connection. */
  function OneMore(nodes: map<NodeId, Backend>, which: Option<NodeId>): map<NodeId, Backend> {
    map id | id in nodes ::
      nodes[id].(active := if which == Some(id) then nodes[id].active + 1 else nodes[id].active)
  }

  lemma OneMoreOf(nodes: map<NodeId, Backend>, id: NodeId)
    ensures OneMore(nodes, Some(id)) == IncrementNode(nodes, id) && OneMore(nodes, None) == nodes
  {
  }

  /** The client is paired with the socket of this attempt and nothing else changes: the backend
      is connecting exactly when the attempt is in progress, and its node counts it otherwise. */
  ghost predicate PairedBy(s: State, t: State, clientFd: Fd, client: Connection, a: Attempt, retryCount: nat, now: Time)
    requires Connects(a)
  {
    && t.conns == s.conns[clientFd := client.(peer := Some(a.fd), retriesMade := retryCount)]
                         [a.fd := NewConnection(PhaseOf(a)).(peer := Some(clientFd))]
    && t.clientOf == s.clientOf[a.fd := clientFd]
    && t.nodeOf == s.nodeOf[a.fd := a.node]
    && t.connTimes == s.connTimes[a.fd := now]
    && t.retries == s.retries[clientFd := retryCount]
    && t.nodes == OneMore(s.nodes, if a.InProgress? then None else Some(a.node))
    && t == s.(conns := t.conns, clientOf := t.clientOf, nodeOf := t.nodeOf, connTimes := t.connTimes,
               retries := t.retries, nodes := t.nodes)
  }

  lemma LinkPairs(s: State, clientFd: Fd, client: Connection, a: Attempt, retryCount: nat, now: Time)
    requires Connects(a) && client.retriesMade == retryCount
    ensures PairedBy(s, Link(s, clientFd, client, a.node, a.fd, PhaseOf(a), retryCount, now),
                     clientFd, client, a, retryCount, now)
  {
    OneMoreOf(s.nodes, a.node);
    hide OneMore;
  }

  lemma PairedTheSame(s: State, t: State, clientFd: Fd, client: Connection, next: Connection, a: Attempt,
      retryCount: nat, now: Time)
    requires Connects(a) && next == client.(retriesMade := next.retriesMade)
    requires PairedBy(s, t, clientFd, next, a, retryCount, now)
    ensures PairedBy(s, t, clientFd, client, a, retryCount, now)
  {
  }

  /** The first attempt that is not refused decides, if the bound of three retries lets the client
      get there: if it connects, the client is paired with it after that many more retries. In
      every other case the client's bytes are given back and nothing else changes. */
  ghost predicate RoutedBy(s: State, t: State, clientFd: Fd, client: Connection, retryCount: nat,
      attempts: seq<Attempt>, now: Time) {
    var i := FirstReached(attempts);
    if i < |attempts| && retryCount + i <= 3 && Connects(attempts[i])
    then PairedBy(s, t, clientFd, client, attempts[i], retryCount + i, now)
    else t == s.(used := t.used) && (client.Size() <= s.used ==> t.used + client.Size() == s.used)
  }

  lemma {:induction false} ConnectEffect(s: State, clientFd: Fd, client: Connection, retryCount: nat,
      attempts: seq<Attempt>, now: Time)
    requires Ready(client, retryCount)
    ensures RoutedBy(s, Connect(s, clientFd, client, retryCount, attempts, now), clientFd, client, retryCount,
                     attempts, now)
    decreases |attempts|
  {
    hide Link, GiveUp, PairedBy, RoutedBy, FirstReached;
    assert client.(accounted := true) == client;
    if attempts == [] {
      GivesUp(s, clientFd, client, retryCount, attempts, now);
    } else {
      var a := attempts[0];
      match a
      case NoBackend => GivesUp(s, clientFd, client, retryCount, attempts, now);
      case NoAddress(_) => GivesUp(s, clientFd, client, retryCount, attempts, now);
      case Pooled(_, _) => PairsAtOnce(s, clientFd, client, retryCount, attempts, now);
      case Immediate(_, _) => PairsAtOnce(s, clientFd, client, retryCount, attempts, now);
      case InProgress(_, _) => PairsAtOnce(s, clientFd, client, retryCount, attempts, now);
      case Refused(_) =>
        if retryCount >= 3 {
          GivesUp(s, clientFd, client, retryCount, attempts, now);
        } else {
          var next := client.(retriesMade := retryCount + 1);
          OneMoreRetry(client, retryCount);
          ConnectEffect(s, clientFd, next, retryCount + 1, attempts[1..], now);
          RefusedOnce(s, Connect(s, clientFd, next, retryCount + 1, attempts[1..], now), clientFd, client, retryCount,
            attempts, now);
        }
    }
  }

  lemma GivesUp(s: State, clientFd: Fd, client: Connection, retryCount: nat, attempts: seq<Attempt>, now: Time)
    requires client.accounted
    requires attempts == [] || (if attempts[0].Refused? then retryCount >= 3 else !Connects(attempts[0]))
    ensures RoutedBy(s, GiveUp(s, client), clientFd, client, retryCount, attempts, now)
  {
    hide PairedBy;
  }

  lemma PairsAtOnce(s: State, clientFd: Fd, client: Connection, retryCount: nat, attempts: seq<Attempt>, now: Time)
    requires attempts != [] && Connects(attempts[0]) && client.retriesMade == retryCount <= 3
    ensures var a := attempts[0];
      RoutedBy(s, Link(s, clientFd, client, a.node, a.fd, PhaseOf(a), retryCount, now),
               clientFd, client, retryCount, attempts, now)
  {
    hide PairedBy, Link;
    LinkPairs(s, clientFd, client, attempts[0], retryCount, now);
  }

  lemma RefusedOnce(s: State, t: State, clientFd: Fd, client: Connection, retryCount: nat,
      attempts: seq<Attempt>, now: Time)
    requires attempts != [] && attempts[0].Refused?
    requires RoutedBy(s, t, clientFd, client.(retriesMade := retryCount + 1), retryCount + 1, attempts[1..], now)
    ensures RoutedBy(s, t, clientFd, client, retryCount, attempts, now)
  {
    hide PairedBy;
    var i := FirstReached(attempts[1..]);
    assert FirstReached(attempts) == i + 1;
    if i < |attempts[1..]| && retryCount + 1 + i <= 3 && Connects(attempts[1..][i]) {
      PairedTheSame(s, t, clientFd, client, client.(retriesMade := retryCount + 1), attempts[1..][i],
          retryCount + 1 + i, now);
    }
  }

  /** A new client is routed from nothing, with no retries yet. */
  lemma AcceptEffect(s: State, f: Fd, attempts: seq<Attempt>, now: Time)
    ensures RoutedBy(s.(connTimes := s.connTimes[f := now]), AcceptPlain(s, f, attempts, now),
                     f, NewConnection(Established), 0, attempts, now)
  {
    hide Connect, RoutedBy;
    ConnectEffect(s.(connTimes := s.connTimes[f := now]), f, NewConnection(Established), 0, attempts, now);
  }

  /** A client that arrives over TLS waits for its handshake; a rejected one only for its answer to
      be sent. */
  lemma ArrivalEffect(s: State, f: Fd, response: seq<Byte>, now: Time)
    ensures var t := AcceptTls(s, f, now);
      && t == s.(conns := s.conns[f := t.conns[f]], connTimes := s.connTimes[f := now])
      && t.conns[f].phase.Handshake? && t.conns[f].accounted && t.conns[f].peer.None? && t.conns[f].Size() == 0
    ensures var t := AcceptRejected(s, f, response, now);
      && t == s.(conns := s.conns[f := t.conns[f]], connTimes := s.connTimes[f := now])
      && t.conns[f].phase.Established? && !t.conns[f].accounted && t.conns[f].peer.None?
      && t.conns[f].writeBuf == response && t.conns[f].readBuf == []
  {
  }

  /** After its handshake a client is established and routed for the first time. */
  lemma HandshakeEffect(s: State, f: Fd, attempts: seq<Attempt>, now: Time)
    requires Inv(s, 0) && f in s.conns && s.conns[f].phase.Handshake?
    ensures RoutedBy(s.(conns := s.conns - {f}), FinishHandshake(s, f, attempts, now),
                     f, s.conns[f].(phase := Established), 0, attempts, now)
  {
    hide Linked, RetriesRecorded, Counted, Gauged, Budgeted, Connect, RoutedBy;
    SoundAt(s, f);
    ConnectEffect(s.(conns := s.conns - {f}), f, s.conns[f].(phase := Established), 0, attempts, now);
  }

  /** When a connect fails its backend goes; the client is routed again with one more retry, or
      given up once three have been made. */
  lemma RetryEffect(s: State, b: Fd, attempts: seq<Attempt>, now: Time)
    requires Inv(s, 0) && b in s.clientOf && b in s.conns && s.conns[b].phase.Connecting?
    ensures CanRetry(s, b) && s.clientOf[b] != b
    ensures var t, u, c := RetryBackend(s, b, attempts, now), CloseBackendOnly(s, b), s.clientOf[b];
      var out := u.(conns := u.conns - {c});
      if s.conns[c].retriesMade >= 3 then t == out.(used := t.used)
      else RoutedBy(out, t, c, s.conns[c].(peer := None, retriesMade := s.conns[c].retriesMade + 1),
                    s.conns[c].retriesMade + 1, attempts, now)
  {
    hide Linked, Sound, RetriesRecorded, Counted, Gauged, Budgeted, CloseBackendOnly, Connect, Ready, RoutedBy;
    var c, u := s.clientOf[b], CloseBackendOnly(s, b);
    RetriedClient(s, b);
    BackendOnlyWidows(s, b);
    assert u.conns[c] == s.conns[c].(peer := None);
    hide Widowed;
    var client, count := u.conns[c], u.conns[c].retriesMade;
    if count < MAX_RETRY_ATTEMPTS {
      OneMoreRetry(client, count);
      ConnectEffect(u.(conns := u.conns - {c}), c, client.(retriesMade := count + 1), count + 1, attempts, now);
    }
  }

  lemma OneMoreRetry(c: Connection, count: nat)
    requires Ready(c, count) && count < MAX_RETRY_ATTEMPTS
    ensures Ready(c.(retriesMade := count + 1), count + 1)
  {
  }

  /** Closing only the backend takes it out of the tables and leaves its client without a peer. */
  lemma BackendOnlyEffect(s: State, b: Fd)
    requires Inv(s, 0) && b in s.clientOf
    ensures var t, c := CloseBackendOnly(s, b), s.clientOf[b];
      && c in s.conns && c != b
      && t.conns == (s.conns - {b})[c := s.conns[c].(peer := None)]
      && t.nodeOf == s.nodeOf - {b} && t.clientOf == s.clientOf - {b} && t.retries == s.retries
  {
    hide Sound, RetriesRecorded, Counted, Gauged, Budgeted;
    OldPair(s, b);
    hide Linked;
    BackendOnlyWidows(s, b);
  }

  /** A connect that succeeds makes its backend established, and its node counts it. */
  lemma EstablishEffect(s: State, f: Fd)
    requires f in s.conns
    ensures var t := Establish(s, f);
      && t.conns == s.conns[f := s.conns[f].(phase := Established)]
      && t.nodes == OneMore(s.nodes, if f in s.nodeOf then Some(s.nodeOf[f]) else None)
      && t == s.(conns := t.conns, nodes := t.nodes)
  {
    if f in s.nodeOf {
      OneMoreOf(s.nodes, s.nodeOf[f]);
    } else {
      assert OneMore(s.nodes, None) == s.nodes;
    }
    hide OneMore;
  }
}
