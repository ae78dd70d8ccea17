/** The proxy's connection tables and the effect of each primitive operation on them.
    The kernel, the clock and the backend pool appear as parameters of the operations. */
module Lifecycle {
  import opened Collections
  import opened Backends
  import opened MemoryBudget

  /** File descriptors and payload bytes: only equality matters here. */
  type Fd(==, !new)
  type Byte(==, !new)
  type Time = int

  const MAX_BUFFER: nat := 65536
  const MAX_RETRY_ATTEMPTS: nat := 3

  datatype Phase = Handshake | Connecting | Established | Closed

  /** One `Connection`. The peer pointer is the peer's descriptor. `received` and `sent`
      are everything read from and written to the socket since the connection was opened
      or last borrowed, and `retriesMade` counts the retries made for a client. */
  datatype Connection = Connection(
    phase: Phase,
    peer: Option<Fd>,
    readBuf: seq<Byte>,
    writeBuf: seq<Byte>,
    accounted: bool,
    memoryBlocked: bool,
    bufferFull: bool,
    received: seq<Byte>,
    sent: seq<Byte>,
    retriesMade: nat
  ) {
    function Size(): nat {
      |readBuf| + |writeBuf|
    }
  }

  function NewConnection(phase: Phase): Connection {
    Connection(phase, None, [], [], true, false, false, [], [], 0)
  }

  datatype State = State(
    conns: map<Fd, Connection>,      // connections_
    nodeOf: map<Fd, NodeId>,         // backend_connections_
    clientOf: map<Fd, Fd>,           // backend_to_client_map_
    connTimes: map<Fd, Time>,        // connection_times_
    pressure: map<Fd, Time>,         // backpressure_start_times_
    retries: map<Fd, nat>,           // client_retry_counts_
    nodes: map<NodeId, Backend>,     // the backends that are still alive
    gauge: nat,                      // the backpressure_active metric
    used: nat,                       // the memory budget's used bytes
    limit: nat                       // the memory budget's limit
  )

  // ---------------------------------------------------------------- kernel outcomes

  datatype ReadResult = Got(bytes: seq<Byte>) | ReadWouldBlock | ReadStopped
  datatype WriteResult = Wrote(n: nat) | WriteWouldBlock | WriteFailed

  /** What one pass through `connect` meets. */
  datatype Attempt =
    | NoBackend
    | Pooled(node: NodeId, fd: Fd)
    | NoAddress(node: NodeId)          // no socket, or the host does not resolve
    | Refused(node: NodeId)            // connect fails at once
    | Immediate(node: NodeId, fd: Fd)
    | InProgress(node: NodeId, fd: Fd)

  // ---------------------------------------------------------------- closing

  function ReleaseFor(used: nat, c: Connection): nat {
    if c.accounted then Release(used, c.Size()) else used
  }

  function DecrementNode(nodes: map<NodeId, Backend>, id: NodeId): map<NodeId, Backend> {
    if id in nodes then nodes[id := nodes[id].Decremented()] else nodes
  }

  function IncrementNode(nodes: map<NodeId, Backend>, id: NodeId): map<NodeId, Backend> {
    if id in nodes then nodes[id := nodes[id].Incremented()] else nodes
  }

  /** The peer of `c`, if it has one in the table, forgets `c`. */
  function ForgottenByPeer(conns: map<Fd, Connection>, c: Connection): map<Fd, Connection> {
    if c.peer.Some? && c.peer.value in conns
    then conns[c.peer.value := conns[c.peer.value].(peer := None)]
    else conns
  }

  /** `fd` leaves every table except `conns`; an established backend gives back its slot. */
  function Detach(s: State, fd: Fd, phase: Phase): State {
    s.(nodes := if fd in s.nodeOf && phase.Established? then DecrementNode(s.nodes, s.nodeOf[fd]) else s.nodes,
       nodeOf := s.nodeOf - {fd},
       clientOf := s.clientOf - {fd},
       connTimes := s.connTimes - {fd},
       pressure := s.pressure - {fd},
       retries := s.retries - {fd},
       gauge := if fd in s.pressure && s.gauge > 0 then s.gauge - 1 else s.gauge)
  }

  /** The connection `c` of `fd` is destroyed or handed to the pool; its bytes are given back. */
  function Discard(s: State, fd: Fd, c: Connection): State {
    s.(conns := s.conns - {fd}, used := ReleaseFor(s.used, c))
  }

  /** The second half of `close_connection`: the peer goes too, to the pool or for good. */
  function ClosePeer(s: State, fd: Fd): State
    requires fd in s.conns
  {
    var c := s.conns[fd];
    Discard(if c.phase.Closed? then s else Detach(s, fd, c.phase), fd, c)
  }

  /** `close_connection` */
  function Close(s: State, fd: Fd): State {
    if fd !in s.conns then s
    else
      var c := s.conns[fd];
      var t := Detach(s, fd, c.phase);
      if c.phase.Closed? then
        Discard(t.(conns := ForgottenByPeer(t.conns, c)), fd, c)
      else
        var u := t.(clientOf := DropValue(t.clientOf, fd));
        Discard(if c.peer.Some? && c.peer.value in u.conns then ClosePeer(u, c.peer.value) else u, fd, c)
  }

  /** `close_backend_connection_only`; unlike `close_connection` it leaves the retry counts alone. */
  function CloseBackendOnly(s: State, fd: Fd): State {
    if fd !in s.conns then s
    else
      var c := s.conns[fd];
      Discard(Detach(s, fd, c.phase).(retries := s.retries, conns := ForgottenByPeer(s.conns, c)), fd, c)
  }

  // ---------------------------------------------------------------- connecting

  /** Client and backend become peers and enter the tables. */
  function Link(s: State, clientFd: Fd, client: Connection, node: NodeId, fd: Fd, phase: Phase,
                retryCount: nat, now: Time): State
  {
    s.(conns := s.conns[clientFd := client.(peer := Some(fd))]
                       [fd := NewConnection(phase).(peer := Some(clientFd))],
       nodeOf := s.nodeOf[fd := node],
       clientOf := s.clientOf[fd := clientFd],
       connTimes := s.connTimes[fd := now],
       retries := s.retries[clientFd := retryCount],
       nodes := if phase.Established? then IncrementNode(s.nodes, node) else s.nodes)
  }

  /** The client, which is in no table now, is closed. */
  function GiveUp(s: State, client: Connection): State {
    s.(used := ReleaseFor(s.used, client))
  }

  /** `BackendConnector::connect` together with `RetryHandler::retry`. Attempts are met in
      order; running out of them counts as finding no backend. */
  function Connect(s: State, clientFd: Fd, client: Connection, retryCount: nat,
                   attempts: seq<Attempt>, now: Time): State
    decreases |attempts|, 0
  {
    var c := client.(accounted := true);
    if attempts == [] then GiveUp(s, c)
    else match attempts[0]
      case NoBackend => GiveUp(s, c)
      case NoAddress(_) => GiveUp(s, c)
      case Pooled(node, fd) => Link(s, clientFd, c, node, fd, Established, retryCount, now)
      case Immediate(node, fd) => Link(s, clientFd, c, node, fd, Established, retryCount, now)
      case InProgress(node, fd) => Link(s, clientFd, c, node, fd, Connecting, retryCount, now)
      case Refused(_) => Retry(s, clientFd, c, retryCount, attempts[1..], now)
  }

  function Retry(s: State, clientFd: Fd, client: Connection, retryCount: nat,
                 attempts: seq<Attempt>, now: Time): State
    decreases |attempts|, 1
  {
    if retryCount >= MAX_RETRY_ATTEMPTS then GiveUp(s, client)
    else Connect(s, clientFd, client.(retriesMade := client.retriesMade + 1), retryCount + 1, attempts, now)
  }

  function RetryCountOf(s: State, fd: Fd): nat {
    if fd in s.retries then s.retries[fd] else 0
  }

  predicate CanRetry(s: State, fd: Fd) {
    fd in s.clientOf && s.clientOf[fd] in s.conns
  }

  /** `try_retry_on_backend_error`, when it finds the client. */
  function RetryBackend(s: State, fd: Fd, attempts: seq<Attempt>, now: Time): State
    requires CanRetry(s, fd) && s.clientOf[fd] != fd
  {
    var clientFd := s.clientOf[fd];
    var t := CloseBackendOnly(s, fd);
    Retry(t.(conns := t.conns - {clientFd}), clientFd, t.conns[clientFd], RetryCountOf(s, clientFd), attempts, now)
  }

  /** A connection attempt in progress succeeds. */
  function Establish(s: State, fd: Fd): State
    requires fd in s.conns
  {
    s.(conns := s.conns[fd := s.conns[fd].(phase := Established)],
       nodes := if fd in s.nodeOf then IncrementNode(s.nodes, s.nodeOf[fd]) else s.nodes)
  }

  /** A client is accepted without TLS and routed at once. */
  function AcceptPlain(s: State, fd: Fd, attempts: seq<Attempt>, now: Time): State {
    Connect(s.(connTimes := s.connTimes[fd := now]), fd, NewConnection(Established), 0, attempts, now)
  }

  function AcceptTls(s: State, fd: Fd, now: Time): State {
    s.(conns := s.conns[fd := NewConnection(Handshake)], connTimes := s.connTimes[fd := now])
  }

  /** A rejected client keeps an unaccounted connection until its error response is sent. */
  function AcceptRejected(s: State, fd: Fd, response: seq<Byte>, now: Time): State {
    s.(conns := s.conns[fd := NewConnection(Established).(accounted := false, writeBuf := response)],
       connTimes := s.connTimes[fd := now])
  }

  function FinishHandshake(s: State, fd: Fd, attempts: seq<Attempt>, now: Time): State
    requires fd in s.conns
  {
    Connect(s.(conns := s.conns - {fd}), fd, s.conns[fd].(phase := Established), 0, attempts, now)
  }

  // ---------------------------------------------------------------- moving bytes

  /** `read_from_fd` on one connection: the connection, the budget, and whether it may be read again. */
  function ReadFrom(c: Connection, used: nat, limit: nat, r: ReadResult): (Connection, nat, bool) {
    if |c.readBuf| >= MAX_BUFFER then (c.(bufferFull := true), used, true)
    else
      var room := MAX_BUFFER - |c.readBuf|;
      var reserved := if c.accounted then TryReserve(used, limit, room) else (true, used);
      if !reserved.0 then (c.(bufferFull := false, memoryBlocked := true), used, true)
      else match r
        case Got(bytes) =>
          var buf := c.readBuf + bytes;
          (c.(readBuf := buf, received := c.received + bytes,
              memoryBlocked := false, bufferFull := |buf| >= MAX_BUFFER),
           if c.accounted && |bytes| < room then Release(reserved.1, room - |bytes|) else reserved.1,
           true)
        case ReadWouldBlock =>
          (c.(bufferFull := false), if c.accounted then Release(reserved.1, room) else reserved.1, true)
        case ReadStopped =>
          (c.(bufferFull := false), if c.accounted then Release(reserved.1, room) else reserved.1, false)
  }

  /** A read returns between one byte and the room that was offered. */
  predicate ReadFits(c: Connection, r: ReadResult) {
    r.Got? ==> 1 <= |r.bytes| && (|c.readBuf| < MAX_BUFFER ==> |r.bytes| <= MAX_BUFFER - |c.readBuf|)
  }

  /** `write_to_fd` on one connection. */
  function WriteTo(c: Connection, used: nat, r: WriteResult): (Connection, nat, bool)
    requires WriteFits(c, r)
  {
    if c.writeBuf == [] then (c, used, true)
    else match r
      case Wrote(n) =>
        (c.(writeBuf := c.writeBuf[n..], sent := c.sent + c.writeBuf[..n], memoryBlocked := false),
         if c.accounted then Release(used, n) else used,
         true)
      case WriteWouldBlock => (c, used, true)
      case WriteFailed => (c, used, false)
  }

  predicate WriteFits(c: Connection, r: WriteResult) {
    r.Wrote? ==> r.n <= |c.writeBuf|
  }

  function Read(s: State, fd: Fd, r: ReadResult): State
    requires fd in s.conns
  {
    var (c, used, _) := ReadFrom(s.conns[fd], s.used, s.limit, r);
    s.(conns := s.conns[fd := c], used := used)
  }

  function Write(s: State, fd: Fd, r: WriteResult): State
    requires fd in s.conns && WriteFits(s.conns[fd], r)
  {
    var (c, used, _) := WriteTo(s.conns[fd], s.used, r);
    s.(conns := s.conns[fd := c], used := used)
  }

  /** The bytes that `forward` copies: as many as fit in the other side's write buffer. */
  function Portion(from: Connection, to: Connection): nat {
    if |to.writeBuf| >= MAX_BUFFER then 0
    else if |from.readBuf| <= MAX_BUFFER - |to.writeBuf| then |from.readBuf|
    else MAX_BUFFER - |to.writeBuf|
  }

  /** The buffers after `forward` has copied and before it writes. */
  function Shift(s: State, from: Fd, to: Fd): State
    requires from in s.conns && to in s.conns
  {
    var n := Portion(s.conns[from], s.conns[to]);
    var rest := s.conns[from].readBuf[n..];
    s.(conns := s.conns[from := s.conns[from].(readBuf := rest,
                                               bufferFull := s.conns[from].bufferFull && |rest| >= MAX_BUFFER)]
                       [to := s.conns[to].(writeBuf := s.conns[to].writeBuf + s.conns[from].readBuf[..n])])
  }

  function StartPressure(s: State, fd: Fd, now: Time): State {
    if fd in s.pressure then s else s.(pressure := s.pressure[fd := now], gauge := s.gauge + 1)
  }

  function ClearPressure(s: State, fd: Fd): State {
    if fd in s.pressure then s.(pressure := s.pressure - {fd}, gauge := if s.gauge > 0 then s.gauge - 1 else 0) else s
  }

  /** Whether `forward` has anything to move. */
  predicate CanForward(s: State, from: Fd, to: Fd)
    requires from in s.conns && to in s.conns
  {
    && s.conns[from].phase.Established?
    && s.conns[to].phase.Established?
    && s.conns[from].readBuf != []
  }

  /** `DataForwarder::forward`. `kernelBusy` says whether the kernel still holds unsent bytes. */
  function Forward(s: State, from: Fd, to: Fd, r: WriteResult, kernelBusy: bool, now: Time): State
    requires from in s.conns && to in s.conns && from != to
    requires CanForward(s, from, to) ==> WriteFits(Shift(s, from, to).conns[to], r)
  {
    if !CanForward(s, from, to) then s
    else if Portion(s.conns[from], s.conns[to]) == 0 then StartPressure(s, from, now)
    else
      var t := Shift(s, from, to);
      var u := Write(t, to, r);
      if r.WriteFailed? then Close(u, to)
      else if u.conns[to].writeBuf != [] || kernelBusy then StartPressure(u, from, now)
      else ClearPressure(u, from)
  }

  /** The HTTP forwarder replaces a read buffer by its edited form if the budget allows. */
  function RewriteIn(c: Connection, used: nat, limit: nat, edited: seq<Byte>): (Connection, nat) {
    var before, after := |c.readBuf|, |edited|;
    if after > before then
      var reserved := if c.accounted then TryReserve(used, limit, after - before) else (true, used);
      if reserved.0 then (c.(memoryBlocked := false, readBuf := edited), reserved.1)
      else (c.(memoryBlocked := true), used)
    else if before > after then
      (c.(memoryBlocked := false, readBuf := edited), if c.accounted then Release(used, before - after) else used)
    else
      (c.(readBuf := edited), used)
  }

  function Rewrite(s: State, fd: Fd, edited: seq<Byte>): State
    requires fd in s.conns
  {
    var (c, used) := RewriteIn(s.conns[fd], s.used, s.limit, edited);
    s.(conns := s.conns[fd := c], used := used)
  }
}
