/** What one reactor callback does to the tables, as a function of the event and of what the
    system calls return, and what that means for the pair it concerns. */
module EventEffects {
  import opened Lifecycle

  datatype Event = Readable | Writable | Broken   // READ, WRITE, and ERROR or HUP

  datatype HandshakeResult = HandshakeFinished | HandshakePending | HandshakeFailed

  /** What one forward meets: the result of its write, and whether the kernel still holds bytes
      for the side that it wrote to. */
  datatype Answer = Answer(write: WriteResult, busy: bool)

  /** What the outside world contributes to one callback: the result of each system call, the
      connect attempts of a retry, the clock and the timeouts. */
  datatype World = World(
    read: ReadResult,
    write: WriteResult,
    ownBusy: bool,
    peerBusy: bool,
    early: Answer,       // the forward of what arrived before the backend was established
    forwarded: Answer,   // the forward of what has been read
    last: Answer,        // the forward of what is left when the connection has ended
    socketOk: bool,
    handshake: HandshakeResult,
    attempts: seq<Attempt>,
    now: Time,
    pressureTimeout: Time,
    connectTimeout: Time
  )

  /** The kernel never delivers more than the room it is offered. */
  function Delivered(c: Connection, r: ReadResult): (d: ReadResult)
    ensures ReadFits(c, d)
  {
    if !r.Got? then r
    else if r.bytes == [] then ReadWouldBlock
    else if |c.readBuf| < MAX_BUFFER && |r.bytes| > MAX_BUFFER - |c.readBuf| then
      Got(r.bytes[..MAX_BUFFER - |c.readBuf|])
    else r
  }

  /** The kernel never takes more than it is given. */
  function TakenUp(c: Connection, r: WriteResult): (d: WriteResult)
    ensures WriteFits(c, d)
  {
    if r.Wrote? && r.n > |c.writeBuf| then Wrote(|c.writeBuf|) else r
  }

  // ---------------------------------------------------------------- the parts of a callback

  predicate Late(s: State, fd: Fd, w: World) {
    fd in s.pressure && w.now - s.pressure[fd] >= w.pressureTimeout
  }

  predicate PeerReady(s: State, fd: Fd) {
    && fd in s.conns && s.conns[fd].peer.Some?
    && var p := s.conns[fd].peer.value; p != fd && p in s.conns && s.conns[p].phase.Established?
  }

  /** Forwards what has been read, if there is an established peer to forward to. */
  function ForwardFrom(s: State, fd: Fd, a: Answer, now: Time): State {
    if PeerReady(s, fd) && s.conns[fd].readBuf != [] then
      var p := s.conns[fd].peer.value;
      Forward(s, fd, p, TakenUp(Shift(s, fd, p).conns[p], a.write), a.busy, now)
    else s
  }

  /** The common part of both read branches, and whether the connection has ended. */
  function ReadOn(s: State, fd: Fd, w: World): (State, bool)
    requires fd in s.conns
  {
    var d := Delivered(s.conns[fd], w.read);
    var t := Read(s, fd, d);
    if t.conns[fd].memoryBlocked then (StartPressure(t, fd, w.now), false)
    else
      var u := ForwardFrom(t, fd, w.forwarded, w.now);
      (u, !t.conns[fd].bufferFull && fd in u.conns && !ReadFrom(s.conns[fd], s.used, s.limit, d).2)
  }

  function LeaveClient(s: State, fd: Fd): State {
    if fd in s.conns then CloseBackendOnly(s, fd) else s
  }

  function BackendRead(s: State, fd: Fd, w: World): State
    requires fd in s.conns
  {
    var (t, ended) := ReadOn(s, fd, w);
    if ended then LeaveClient(ForwardFrom(t, fd, w.last, w.now), fd) else t
  }

  function ClientRead(s: State, fd: Fd, w: World): State
    requires fd in s.conns
  {
    var (t, ended) := ReadOn(s, fd, w);
    if !ended then t else if PeerReady(t, fd) then ForwardFrom(t, fd, w.last, w.now) else Close(t, fd)
  }

  /** Flush the write buffer and note who still has bytes to send. */
  function Flush(s: State, fd: Fd, w: World, onlyEstablished: bool): State
    requires fd in s.conns
  {
    var d := TakenUp(s.conns[fd], w.write);
    var t := Write(s, fd, d);
    if WriteTo(s.conns[fd], s.used, d).2 then Track(t, fd, w, onlyEstablished) else Close(t, fd)
  }

  function Track(s: State, fd: Fd, w: World, onlyEstablished: bool): State
    requires fd in s.conns
  {
    var t := if s.conns[fd].writeBuf != [] || w.ownBusy then StartPressure(s, fd, w.now) else s;
    if PeerSends(s, fd, w, onlyEstablished) then StartPressure(t, s.conns[fd].peer.value, w.now) else t
  }

  /** The peer has something to send. */
  predicate PeerSends(s: State, fd: Fd, w: World, onlyEstablished: bool)
    requires fd in s.conns
  {
    var p := s.conns[fd].peer;
    && p.Some? && p.value in s.conns && (!onlyEstablished || s.conns[p.value].phase.Established?)
    && (s.conns[p.value].writeBuf != [] || w.peerBusy)
  }

  function Retried(s: State, fd: Fd, w: World): State {
    if CanRetry(s, fd) && s.clientOf[fd] != fd then RetryBackend(s, fd, w.attempts, w.now) else Close(s, fd)
  }

  /** A connect has failed: the socket broke, it took too long, or it reports an error. */
  predicate ConnectFails(s: State, fd: Fd, event: Event, w: World) {
    event.Broken? || (fd in s.connTimes && w.now - s.connTimes[fd] > w.connectTimeout) || !w.socketOk
  }

  /** The backend is established, and gets what its client has sent in the meantime. */
  function Opened(s: State, fd: Fd, w: World): State
    requires fd in s.conns
  {
    var t := Establish(s, fd);
    if PeerReady(t, fd) then ForwardFrom(t, t.conns[fd].peer.value, w.early, w.now) else t
  }

  function ServeBackend(s: State, fd: Fd, event: Event, w: World): State {
    if fd !in s.conns || !s.conns[fd].phase.Established? then s
    else if event.Readable? then BackendRead(s, fd, w)
    else Flush(s, fd, w, true)
  }

  /** `handle_backend_event` */
  function BackendEvent(s: State, fd: Fd, event: Event, w: World): State {
    if fd !in s.conns || s.conns[fd].phase.Closed? then s
    else if Late(s, fd, w) then Close(s, fd)
    else if s.conns[fd].phase.Connecting? then
      if ConnectFails(s, fd, event, w) then Retried(s, fd, w)
      else ServeBackend(Opened(s, fd, w), fd, event, w)
    else if event.Broken? then
      if s.conns[fd].phase.Established? then
        LeaveClient(ForwardFrom(Read(s, fd, Delivered(s.conns[fd], w.read)), fd, w.forwarded, w.now), fd)
      else Close(s, fd)
    else ServeBackend(s, fd, event, w)
  }

  /** `handle_client_event` */
  function ClientEvent(s: State, fd: Fd, event: Event, w: World): State {
    if fd !in s.conns || s.conns[fd].phase.Closed? then s
    else if Late(s, fd, w) || event.Broken? then Close(s, fd)
    else if s.conns[fd].phase.Handshake? then
      match w.handshake
      case HandshakeFinished => FinishHandshake(s, fd, w.attempts, w.now)
      case HandshakePending => s
      case HandshakeFailed => Close(s, fd)
    else if !s.conns[fd].phase.Established? then s
    else if event.Readable? then ClientRead(s, fd, w)
    else Flush(s, fd, w, false)
  }
}
