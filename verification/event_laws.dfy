/** What a callback means for the pair it concerns, case by case. */
module EventLaws {
  import opened Collections
  import opened Lifecycle
  import opened LifecycleInvariants
  import opened LifecycleClosing
  import opened LifecycleBytes
  import LifecycleRuns
  import opened LifecycleEffects
  import opened EventEffects

  // ---------------------------------------------------------------- what the outside decides

  /** Answers that the kernel can give reach the connection as they are. */
  lemma KernelAnswersCount(c: Connection, read: ReadResult, write: WriteResult)
    ensures ReadFits(c, read) ==> Delivered(c, read) == read
    ensures WriteFits(c, write) ==> TakenUp(c, write) == write
  {
  }

  /** The connection has been stalled for too long. */
  ghost predicate Overdue(s: State, fd: Fd, w: World) {
    fd in s.pressure && w.now - s.pressure[fd] >= w.pressureTimeout
  }

  /** The socket broke while connecting, took too long, or reports an error. */
  ghost predicate Lost(s: State, fd: Fd, event: Event, w: World) {
    event.Broken? || (fd in s.connTimes && w.now - s.connTimes[fd] > w.connectTimeout) || !w.socketOk
  }

  /** There is an established connection on the other side. */
  ghost predicate HasPeer(s: State, fd: Fd) {
    && fd in s.conns && s.conns[fd].peer.Some? && s.conns[fd].peer.value in s.conns
    && s.conns[s.conns[fd].peer.value].phase.Established?
  }

  lemma PeerReadyIff(s: State, fd: Fd)
    requires Inv(s, 0)
    ensures PeerReady(s, fd) <==> HasPeer(s, fd)
  {
    hide Inv;
    if fd in s.conns {
      NotItsOwnPeer(s, fd);
    }
  }

  /** The kernel got to be asked for bytes. */
  ghost predicate Asked(s: State, fd: Fd)
    requires fd in s.conns
  {
    |s.conns[fd].readBuf| < MAX_BUFFER && !OutOfBudget(s.conns[fd], s.used, s.limit)
  }

  /** Everything unread after the read. */
  ghost function Arrived(s: State, fd: Fd, w: World): seq<Byte>
    requires fd in s.conns
  {
    var c := s.conns[fd];
    c.readBuf + Fetched(c, s.used, s.limit, Delivered(c, w.read))
  }

  ghost predicate Ends(s: State, fd: Fd, w: World)
    requires fd in s.conns
  {
    Asked(s, fd) && w.read.ReadStopped?
  }

  /** The budget holds the connection back, or did, and no bytes have come since. */
  ghost predicate HeldBack(s: State, fd: Fd, w: World)
    requires fd in s.conns
  {
    var c := s.conns[fd];
    OutOfBudget(c, s.used, s.limit) || (c.memoryBlocked && !(Asked(s, fd) && Delivered(c, w.read).Got?))
  }

  /** What goes to the other side, if there is an established one. */
  ghost function Passing(s: State, fd: Fd, bytes: seq<Byte>): seq<Byte> {
    if HasPeer(s, fd) then Fitting(bytes, s.conns[s.conns[fd].peer.value]) else []
  }

  // ---------------------------------------------------------------- what becomes of the pair

  /** Nothing but this connection and its peer has changed. */
  ghost predicate OthersStay(s: State, t: State, fd: Fd)
    requires fd in s.conns
  {
    forall f :: f in s.conns && f != fd && s.conns[fd].peer != Some(f) ==> f in t.conns && t.conns[f] == s.conns[f]
  }

  /** The connection goes on: of `bytes`, what fits has been passed on and the rest is unread. */
  ghost predicate WentOn(s: State, t: State, fd: Fd, bytes: seq<Byte>)
    requires fd in s.conns
  {
    var passed := Passing(s, fd, bytes);
    && t.conns.Keys == s.conns.Keys && OthersStay(s, t, fd)
    && SameRole(s.conns[fd], t.conns[fd])
    && t.conns[fd].readBuf == bytes[|passed|..] && t.conns[fd].writeBuf == s.conns[fd].writeBuf
    && (s.conns[fd].peer.Some? && s.conns[fd].peer.value in s.conns ==>
          Extended(s.conns[s.conns[fd].peer.value], t.conns[s.conns[fd].peer.value], passed))
  }

  /** Behind what one side had to send there is more; the rest of it is the same. */
  ghost predicate Extended(c: Connection, d: Connection, more: seq<Byte>) {
    SameRole(c, d) && d.readBuf == c.readBuf && d.sent + d.writeBuf == c.sent + c.writeBuf + more
  }

  ghost predicate PairIsGone(s: State, t: State, fd: Fd) {
    t.conns == s.conns - Pair(s, fd)
  }

  // ---------------------------------------------------------------- one forward

  lemma ForwardFromMeans(s: State, fd: Fd, a: Answer, now: Time)
    requires Inv(s, 0) && fd in s.conns && s.conns[fd].phase.Established?
    ensures var t, passed := ForwardFrom(s, fd, a, now), Passing(s, fd, s.conns[fd].readBuf);
      && Inv(t, 0)
      && if passed != [] && a.write.WriteFailed? then PairIsGone(s, t, fd)
         else WentOn(s, t, fd, s.conns[fd].readBuf) && t.clientOf == s.clientOf && t.nodes == s.nodes
  {
    PeerReadyIff(s, fd);
    hide Inv, Forward, Passed, Fitting, WentOn;
    if PeerReady(s, fd) && s.conns[fd].readBuf != [] {
      var p := s.conns[fd].peer.value;
      var r := TakenUp(Shift(s, fd, p).conns[p], a.write);
      assert Passing(s, fd, s.conns[fd].readBuf) == Moved(s.conns[fd], s.conns[p]) && Pair(s, fd) == {fd, p};
      assert r.WriteFailed? <==> a.write.WriteFailed?;
      hide Passing, Moved, Pair, TakenUp, Shift;
      ForwardDelivers(s, fd, p, r, a.busy, now);
      ForwardKeepsInv(s, fd, p, r, a.busy, now);
      if !(Moved(s.conns[fd], s.conns[p]) != [] && r.WriteFailed?) {
        PassedWentOn(s, ForwardFrom(s, fd, a, now), fd, p, a.busy);
      }
    } else {
      NothingPassed(s, fd);
    }
  }

  lemma PassedWentOn(s: State, t: State, fd: Fd, p: Fd, busy: bool)
    requires fd in s.conns && HasPeer(s, fd) && s.conns[fd].peer == Some(p)
    requires Passed(s, t, fd, p, Moved(s.conns[fd], s.conns[p]), busy)
    ensures WentOn(s, t, fd, s.conns[fd].readBuf) && t.clientOf == s.clientOf && t.nodes == s.nodes
  {
    hide SameRole;
    var passed := Moved(s.conns[fd], s.conns[p]);
    assert s.conns[fd].readBuf == passed + t.conns[fd].readBuf;
    assert s.conns[fd].readBuf[|passed|..] == t.conns[fd].readBuf;
  }

  lemma NothingPassed(s: State, fd: Fd)
    requires fd in s.conns && !(HasPeer(s, fd) && s.conns[fd].readBuf != [])
    ensures Passing(s, fd, s.conns[fd].readBuf) == [] && WentOn(s, s, fd, s.conns[fd].readBuf)
  {
    var b := s.conns[fd].readBuf;
    assert b[0..] == b;
    assert Passing(s, fd, b) == [];
    if s.conns[fd].peer.Some? && s.conns[fd].peer.value in s.conns {
      var c := s.conns[s.conns[fd].peer.value];
      assert c.sent + c.writeBuf == c.sent + c.writeBuf + [];
    }
  }

  // ---------------------------------------------------------------- one read

  lemma ReadMeans(s: State, fd: Fd, w: World)
    requires Inv(s, 0) && fd in s.conns && s.conns[fd].phase.Established?
    ensures var c, d := s.conns[fd], Delivered(s.conns[fd], w.read);
      var t := Read(s, fd, d);
      && Inv(t, 0)
      && t == s.(conns := s.conns[fd := t.conns[fd]], used := t.used)
      && SameRole(c, t.conns[fd]) && t.conns[fd].writeBuf == c.writeBuf
      && t.conns[fd].readBuf == Arrived(s, fd, w)
      && (t.conns[fd].memoryBlocked <==> HeldBack(s, fd, w))
      && (ReadFrom(c, s.used, s.limit, d).2 <==> !Ends(s, fd, w))
      && (Ends(s, fd, w) ==> !t.conns[fd].bufferFull)
  {
    hide Linked, Sound, RetriesRecorded, Counted, Gauged, Footprint;
    ReadEffect(s.conns[fd], s.used, s.limit, Delivered(s.conns[fd], w.read));
    ReadKeepsInv(s, fd, Delivered(s.conns[fd], w.read));
    hide ReadFrom;
  }

  /** A read changes nothing for the peer. */
  lemma PassingAfterRead(s: State, t: State, fd: Fd, bytes: seq<Byte>)
    requires fd in s.conns && fd in t.conns && t == s.(conns := s.conns[fd := t.conns[fd]], used := t.used)
    requires SameRole(s.conns[fd], t.conns[fd])
    ensures s.conns[fd].peer != Some(fd) ==>
      HasPeer(t, fd) == HasPeer(s, fd) && Passing(t, fd, bytes) == Passing(s, fd, bytes)
    ensures Pair(t, fd) == Pair(s, fd)
  {
  }

  lemma WentOnAfterRead(s: State, t: State, u: State, fd: Fd)
    requires fd in s.conns && fd in t.conns && t == s.(conns := s.conns[fd := t.conns[fd]], used := t.used)
    requires SameRole(s.conns[fd], t.conns[fd]) && t.conns[fd].writeBuf == s.conns[fd].writeBuf
    requires s.conns[fd].peer != Some(fd) && WentOn(t, u, fd, t.conns[fd].readBuf)
    ensures WentOn(s, u, fd, t.conns[fd].readBuf)
  {
    PassingAfterRead(s, t, fd, t.conns[fd].readBuf);
    hide Passing;
  }

  lemma GoneAfterRead(s: State, t: State, u: State, fd: Fd)
    requires fd in s.conns && fd in t.conns && t == s.(conns := s.conns[fd := t.conns[fd]], used := t.used)
    requires SameRole(s.conns[fd], t.conns[fd]) && PairIsGone(t, u, fd)
    ensures PairIsGone(s, u, fd)
  {
    MinusOverwritten(s.conns, fd, t.conns[fd], Pair(s, fd));
  }

  /** Reading and forwarding: held back by the budget the connection is tracked; a failed forward
      takes the pair away; otherwise it goes on, and is known to have ended exactly when the kernel
      says so. */
  ghost predicate ReadOutcome(s: State, t: State, ended: bool, fd: Fd, w: World)
    requires fd in s.conns
  {
    var all := Arrived(s, fd, w);
    if HeldBack(s, fd, w) then !ended && Waits(s, t, fd, all)
    else if Passing(s, fd, all) != [] && w.forwarded.write.WriteFailed? then !ended && PairIsGone(s, t, fd)
    else WentOn(s, t, fd, all) && (ended <==> Ends(s, fd, w)) && t.clientOf == s.clientOf
  }

  ghost predicate Waits(s: State, t: State, fd: Fd, bytes: seq<Byte>) {
    fd in t.pressure && fd in t.conns && t.conns == s.conns[fd := t.conns[fd]] && t.conns[fd].readBuf == bytes
  }

  lemma ReadOnMeans(s: State, fd: Fd, w: World)
    requires Inv(s, 0) && fd in s.conns && s.conns[fd].phase.Established?
    ensures Inv(ReadOn(s, fd, w).0, 0) && ReadOutcome(s, ReadOn(s, fd, w).0, ReadOn(s, fd, w).1, fd, w)
  {
    hide Inv, Read, ReadFrom, ForwardFrom, HeldBack, Arrived, Ends, Passing, WentOn, PairIsGone, StartPressure;
    var d := Delivered(s.conns[fd], w.read);
    var t := Read(s, fd, d);
    ReadMeans(s, fd, w);
    NotItsOwnPeer(s, fd);
    if t.conns[fd].memoryBlocked {
      PressureEffect(t, fd, w.now);
      PressureKeepsInv(t, fd, w.now);
    } else {
      PassingAfterRead(s, t, fd, t.conns[fd].readBuf);
      ForwardFromMeans(t, fd, w.forwarded, w.now);
      var u := ForwardFrom(t, fd, w.forwarded, w.now);
      if Passing(s, fd, Arrived(s, fd, w)) != [] && w.forwarded.write.WriteFailed? {
        GoneAfterRead(s, t, u, fd);
        assert fd !in u.conns by { GoneFromTable(s, u, fd); }
      } else {
        assert fd in u.conns by { StillInTable(t, u, fd); }
        WentOnAfterRead(s, t, u, fd);
      }
    }
  }

  lemma NotItsOwnPeer(s: State, fd: Fd)
    requires Inv(s, 0) && fd in s.conns
    ensures s.conns[fd].peer != Some(fd)
  {
    hide Linked, Counted, Gauged, Budgeted, RetriesRecorded, Sound;
    if s.conns[fd].peer.Some? {
      InvPeer(s, fd);
    }
  }

  lemma GoneFromTable(s: State, t: State, fd: Fd)
    requires fd in s.conns && PairIsGone(s, t, fd)
    ensures fd !in t.conns
  {
  }

  lemma StillInTable(s: State, t: State, fd: Fd)
    requires fd in s.conns && WentOn(s, t, fd, s.conns[fd].readBuf)
    ensures fd in t.conns
  {
  }

  // ---------------------------------------------------------------- read events

  /** The backend has left, and its client, without a peer, has more to send, or the same. */
  ghost predicate LeftBehind(s: State, t: State, fd: Fd, more: seq<Byte>)
    requires fd in s.clientOf
  {
    var c := s.clientOf[fd];
    && t.conns.Keys == s.conns.Keys - {fd}
    && (forall f :: f in s.conns && f != fd && f != c ==> f in t.conns && t.conns[f] == s.conns[f])
    && c in s.conns && c in t.conns && t.conns[c].peer.None? && t.conns[c].readBuf == s.conns[c].readBuf
    && s.conns[c].sent + s.conns[c].writeBuf + more <= t.conns[c].sent + t.conns[c].writeBuf
  }

  lemma BackendPeer(s: State, fd: Fd)
    requires Inv(s, 0) && fd in s.clientOf
    ensures fd in s.conns && s.clientOf[fd] in s.conns && s.clientOf[fd] != fd
    ensures s.conns[fd].peer == Some(s.clientOf[fd]) && s.conns[s.clientOf[fd]].peer == Some(fd)
    ensures s.conns[s.clientOf[fd]].phase.Established? && PeerReady(s, fd) && HasPeer(s, fd)
    ensures Pair(s, fd) == {fd, s.clientOf[fd]}
  {
    hide RetriesRecorded, Counted, Gauged, Budgeted, Linked, Sound;
    OldPair(s, fd);
    SoundAt(s, s.clientOf[fd]);
  }

  /** A forward of all that is left, and then the backend leaves. */
  lemma LastForward(s: State, fd: Fd, a: Answer, now: Time)
    requires Inv(s, 0) && fd in s.clientOf && fd in s.conns && s.conns[fd].phase.Established?
    ensures var t, passed := LeaveClient(ForwardFrom(s, fd, a, now), fd), Passing(s, fd, s.conns[fd].readBuf);
      if passed != [] && a.write.WriteFailed? then PairIsGone(s, t, fd) else LeftBehind(s, t, fd, passed)
  {
    hide Inv, ForwardFrom, CloseBackendOnly, Passing;
    BackendPeer(s, fd);
    var u := ForwardFrom(s, fd, a, now);
    ForwardFromMeans(s, fd, a, now);
    if Passing(s, fd, s.conns[fd].readBuf) != [] && a.write.WriteFailed? {
      assert fd !in u.conns;
    } else {
      BackendOnlyEffect(u, fd);
    }
  }

  /** Whose backend it was, and what it had been given before. */
  lemma LeftBehindLater(s: State, t: State, u: State, fd: Fd, bytes: seq<Byte>, more: seq<Byte>)
    requires Inv(s, 0) && fd in s.clientOf && fd in s.conns && WentOn(s, t, fd, bytes) && t.clientOf == s.clientOf
    requires LeftBehind(t, u, fd, more)
    ensures LeftBehind(s, u, fd, Passing(s, fd, bytes))
  {
    hide Inv, Passing;
    BackendPeer(s, fd);
    var c := s.clientOf[fd];
    var was, now, last, passed := s.conns[c], t.conns[c], u.conns[c], Passing(s, fd, bytes);
    assert Extended(was, now, passed);
    assert now.sent + now.writeBuf <= now.sent + now.writeBuf + more;
    PrefixIsTransitive(now.sent + now.writeBuf, now.sent + now.writeBuf + more, last.sent + last.writeBuf);
  }

  lemma PrefixIsTransitive(a: seq<Byte>, b: seq<Byte>, c: seq<Byte>)
    requires a <= b <= c
    ensures a <= c
  {
  }

  /** A read event of a backend: held back it waits; a failed forward takes the pair away; at its
      end the backend leaves and its client stays, unless the last forward fails; otherwise both go
      on. */
  ghost predicate BackendReadOutcome(s: State, t: State, fd: Fd, w: World)
    requires fd in s.conns && fd in s.clientOf
  {
    var all := Arrived(s, fd, w);
    if HeldBack(s, fd, w) then Waits(s, t, fd, all)
    else if Passing(s, fd, all) != [] && w.forwarded.write.WriteFailed? then PairIsGone(s, t, fd)
    else if Ends(s, fd, w) then
      LeftBehind(s, t, fd, Passing(s, fd, all)) || (w.last.write.WriteFailed? && PairIsGone(s, t, fd))
    else WentOn(s, t, fd, all)
  }

  lemma BackendReadMeans(s: State, fd: Fd, w: World)
    requires Inv(s, 0) && fd in s.clientOf && fd in s.conns && s.conns[fd].phase.Established?
    ensures BackendReadOutcome(s, BackendRead(s, fd, w), fd, w)
  {
    hide Inv, ReadOn, ForwardFrom, LeaveClient, Arrived, Passing, HeldBack, Ends, WentOn, LeftBehind, PairIsGone, Waits;
    ReadOnMeans(s, fd, w);
    var t, ended := ReadOn(s, fd, w).0, ReadOn(s, fd, w).1;
    if ended {
      var all := Arrived(s, fd, w);
      WentOnRoles(s, t, fd, all);
      LastForward(t, fd, w.last, w.now);
      var u := LeaveClient(ForwardFrom(t, fd, w.last, w.now), fd);
      var passed := Passing(t, fd, t.conns[fd].readBuf);
      if passed != [] && w.last.write.WriteFailed? {
        GoneLater(s, t, u, fd, all);
      } else {
        LeftBehindLater(s, t, u, fd, all, passed);
      }
    }
  }

  lemma WentOnRoles(s: State, t: State, fd: Fd, bytes: seq<Byte>)
    requires fd in s.conns && WentOn(s, t, fd, bytes)
    ensures fd in t.conns && SameRole(s.conns[fd], t.conns[fd]) && HasPeer(t, fd) == HasPeer(s, fd)
    ensures Pair(t, fd) == Pair(s, fd)
  {
    hide Passing;
  }

  lemma GoneLater(s: State, t: State, u: State, fd: Fd, bytes: seq<Byte>)
    requires fd in s.conns && WentOn(s, t, fd, bytes) && PairIsGone(t, u, fd)
    ensures PairIsGone(s, u, fd)
  {
    WentOnRoles(s, t, fd, bytes);
    hide Passing;
    assert t.conns - Pair(s, fd) == s.conns - Pair(s, fd);
  }

  /** A read event of a client: the same, but at its end the client stays if it has an established
      backend, unless the last forward fails, and is closed if it has none. */
  ghost predicate ClientReadOutcome(s: State, t: State, fd: Fd, w: World)
    requires fd in s.conns
  {
    var all := Arrived(s, fd, w);
    if HeldBack(s, fd, w) then Waits(s, t, fd, all)
    else if Passing(s, fd, all) != [] && w.forwarded.write.WriteFailed? then PairIsGone(s, t, fd)
    else if !Ends(s, fd, w) then WentOn(s, t, fd, all)
    else if HasPeer(s, fd) then t.conns.Keys == s.conns.Keys || (w.last.write.WriteFailed? && PairIsGone(s, t, fd))
    else PairIsGone(s, t, fd)
  }

  lemma ClientReadMeans(s: State, fd: Fd, w: World)
    requires Inv(s, 0) && fd in s.conns && s.conns[fd].phase.Established?
    ensures ClientReadOutcome(s, ClientRead(s, fd, w), fd, w)
  {
    hide Inv, ReadOn, ForwardFrom, Close, Arrived, Passing, HeldBack, Ends, WentOn, PairIsGone, Waits,
        PeerReady, HasPeer;
    ReadOnMeans(s, fd, w);
    var t, ended := ReadOn(s, fd, w).0, ReadOn(s, fd, w).1;
    if ended {
      var all := Arrived(s, fd, w);
      WentOnRoles(s, t, fd, all);
      PeerReadyIff(t, fd);
      if PeerReady(t, fd) {
        ForwardFromMeans(t, fd, w.last, w.now);
        var u := ForwardFrom(t, fd, w.last, w.now);
        if Passing(t, fd, t.conns[fd].readBuf) != [] && w.last.write.WriteFailed? {
          GoneLater(s, t, u, fd, all);
        } else {
          SameTable(s, t, fd, all);
          SameTable(t, u, fd, t.conns[fd].readBuf);
        }
      } else {
        CloseTakesPair(t, fd);
        GoneLater(s, t, Close(t, fd), fd, all);
      }
    }
  }

  lemma SameTable(s: State, t: State, fd: Fd, bytes: seq<Byte>)
    requires fd in s.conns && WentOn(s, t, fd, bytes)
    ensures t.conns.Keys == s.conns.Keys
  {
  }

  lemma CloseTakesPair(s: State, fd: Fd)
    requires Inv(s, 0)
    ensures PairIsGone(s, Close(s, fd), fd)
  {
    hide Linked, Sound, RetriesRecorded, Counted, Gauged, Budgeted, Close;
    CloseRemovesPair(s, fd);
  }

  // ---------------------------------------------------------------- write events

  /** A write event: a failed write takes the pair away. Otherwise what the kernel took has been
      sent, nobody else changes, and exactly those are newly tracked that have bytes to send. */
  ghost predicate WriteOutcome(s: State, t: State, fd: Fd, w: World, onlyEstablished: bool)
    requires fd in s.conns
  {
    if s.conns[fd].writeBuf != [] && w.write.WriteFailed? then PairIsGone(s, t, fd)
    else Wrote(s, t, fd, w) && t.pressure.Keys == s.pressure.Keys + Senders(t, fd, w, onlyEstablished)
  }

  ghost predicate Wrote(s: State, t: State, fd: Fd, w: World)
    requires fd in s.conns
  {
    var c, d := s.conns[fd], TakenUp(s.conns[fd], w.write);
    var n := if d.Wrote? then d.n else 0;
    && fd in t.conns && t.conns == s.conns[fd := t.conns[fd]]
    && t.conns[fd].sent == c.sent + c.writeBuf[..n] && t.conns[fd].writeBuf == c.writeBuf[n..]
    && t.conns[fd].readBuf == c.readBuf && SameRole(c, t.conns[fd])
  }

  /** Those of the pair that have something to send. */
  ghost function Senders(s: State, fd: Fd, w: World, onlyEstablished: bool): set<Fd>
    requires fd in s.conns
  {
    (if s.conns[fd].writeBuf != [] || w.ownBusy then {fd} else {})
    + if s.conns[fd].peer.Some? && s.conns[fd].peer.value in s.conns
         && (!onlyEstablished || s.conns[s.conns[fd].peer.value].phase.Established?)
         && (s.conns[s.conns[fd].peer.value].writeBuf != [] || w.peerBusy)
      then {s.conns[fd].peer.value} else {}
  }

  lemma SendersByConns(s: State, t: State, fd: Fd, w: World, onlyEstablished: bool)
    requires fd in s.conns && t.conns == s.conns
    ensures Senders(t, fd, w, onlyEstablished) == Senders(s, fd, w, onlyEstablished)
  {
  }

  lemma WriteMeans(s: State, fd: Fd, w: World)
    requires Inv(s, 0) && fd in s.conns
    ensures var c, d := s.conns[fd], TakenUp(s.conns[fd], w.write);
      var t := Write(s, fd, d);
      && (WriteTo(c, s.used, d).2 <==> c.writeBuf == [] || !w.write.WriteFailed?)
      && Wrote(s, t, fd, w) && t == s.(conns := t.conns, used := t.used)
  {
    WriteEffect(s.conns[fd], s.used, TakenUp(s.conns[fd], w.write));
    hide Inv, WriteTo;
  }

  /** Who is tracked once both sides have been looked at. */
  lemma TrackMeans(s: State, fd: Fd, w: World, onlyEstablished: bool)
    requires fd in s.conns
    ensures var t := Track(s, fd, w, onlyEstablished);
      && t == s.(pressure := t.pressure, gauge := t.gauge)
      && t.pressure.Keys == s.pressure.Keys + Senders(s, fd, w, onlyEstablished)
  {
    hide StartPressure;
    PressureEffect(s, fd, w.now);
    var t := if s.conns[fd].writeBuf != [] || w.ownBusy then StartPressure(s, fd, w.now) else s;
    if PeerSends(s, fd, w, onlyEstablished) {
      PressureEffect(t, s.conns[fd].peer.value, w.now);
    }
  }

  lemma FlushMeans(s: State, fd: Fd, w: World, onlyEstablished: bool)
    requires Inv(s, 0) && fd in s.conns
    ensures WriteOutcome(s, Flush(s, fd, w, onlyEstablished), fd, w, onlyEstablished)
  {
    hide Inv, Close, Track, Write, WriteTo, PairIsGone, Senders, Wrote, TakenUp;
    WriteMeans(s, fd, w);
    var t := Write(s, fd, TakenUp(s.conns[fd], w.write));
    if s.conns[fd].writeBuf != [] && w.write.WriteFailed? {
      WriteKeepsInv(s, fd, TakenUp(s.conns[fd], w.write));
      CloseTakesPair(t, fd);
      GoneAfterWrite(s, t, Close(t, fd), fd, w);
    } else {
      WroteTable(s, t, fd, w);
      var u := Track(t, fd, w, onlyEstablished);
      TrackMeans(t, fd, w, onlyEstablished);
      SendersByConns(t, u, fd, w, onlyEstablished);
      WroteByConns(s, t, u, fd, w);
    }
  }

  lemma WroteTable(s: State, t: State, fd: Fd, w: World)
    requires fd in s.conns && Wrote(s, t, fd, w)
    ensures fd in t.conns && t.conns == s.conns[fd := t.conns[fd]] && t.conns[fd].peer == s.conns[fd].peer
  {
  }

  lemma WroteByConns(s: State, t: State, u: State, fd: Fd, w: World)
    requires fd in s.conns && Wrote(s, t, fd, w) && u.conns == t.conns
    ensures Wrote(s, u, fd, w)
  {
  }

  lemma GoneAfterWrite(s: State, t: State, u: State, fd: Fd, w: World)
    requires fd in s.conns && Wrote(s, t, fd, w) && PairIsGone(t, u, fd)
    ensures PairIsGone(s, u, fd)
  {
    hide Wrote;
    WroteTable(s, t, fd, w);
    assert Pair(t, fd) == Pair(s, fd);
    MinusOverwritten(s.conns, fd, t.conns[fd], Pair(s, fd));
  }

  // ---------------------------------------------------------------- opening

  /** A backend that is now established: its node counts it, and it has got what its client sent
      in the meantime, as far as there is room. */
  ghost predicate OpenedOutcome(s: State, t: State, fd: Fd, w: World)
    requires fd in s.conns && fd in s.clientOf && s.clientOf[fd] in s.conns
  {
    var c := s.clientOf[fd];
    var early := Fitting(s.conns[c].readBuf, s.conns[fd]);
    if early != [] && w.early.write.WriteFailed? then t.conns == s.conns - {fd, c}
    else
      && t.conns.Keys == s.conns.Keys && t.clientOf == s.clientOf
      && t.conns[fd].phase.Established? && t.conns[c].readBuf == s.conns[c].readBuf[|early|..]
      && t.conns[fd].sent + t.conns[fd].writeBuf == s.conns[fd].sent + s.conns[fd].writeBuf + early
      && t.nodes == OneMore(s.nodes, if fd in s.nodeOf then Some(s.nodeOf[fd]) else None)
  }

  lemma OpenedMeans(s: State, fd: Fd, w: World)
    requires Inv(s, 0) && fd in s.clientOf && fd in s.conns && s.conns[fd].phase.Connecting?
    ensures s.clientOf[fd] in s.conns
    ensures Inv(Opened(s, fd, w), 0) && OpenedOutcome(s, Opened(s, fd, w), fd, w)
  {
    hide Inv, Establish, ForwardFrom, OneMore;
    BackendPeer(s, fd);
    EstablishEffect(s, fd);
    EstablishIsSound(s, fd);
    var c, t := s.clientOf[fd], Establish(s, fd);
    ForwardFromMeans(t, c, w.early, w.now);
    assert Passing(t, c, t.conns[c].readBuf) == Fitting(s.conns[c].readBuf, s.conns[fd]);
    hide Fitting, Passing;
    assert Pair(t, c) == {fd, c};
    if Fitting(s.conns[c].readBuf, s.conns[fd]) != [] && w.early.write.WriteFailed? {
      assert s.conns[fd := t.conns[fd]] - {fd, c} == s.conns - {fd, c};
    }
  }

  lemma EstablishIsSound(s: State, fd: Fd)
    requires Inv(s, 0) && fd in s.clientOf && fd in s.conns && s.conns[fd].phase.Connecting?
    ensures Inv(Establish(s, fd), 0)
  {
    hide Inv, Establish;
    LifecycleRuns.EstablishKeepsInv(s, fd);
  }

  // ---------------------------------------------------------------- whole events

  /** `handle_backend_event`. A backend stalled for too long takes its client along. While it is
      connecting, a broken socket, a timeout or a socket error retries its client elsewhere; else it
      is opened and served. A broken established backend passes on its last bytes and leaves. */
  ghost predicate BackendOutcome(s: State, t: State, fd: Fd, event: Event, w: World)
    requires Inv(s, 0) && fd in s.clientOf
  {
    BackendPeer(s, fd);
    if Overdue(s, fd, w) then PairIsGone(s, t, fd)
    else if s.conns[fd].phase.Connecting? then
      if Lost(s, fd, event, w) then RetryOutcome(s, t, fd, w)
      else exists u :: OpenedOutcome(s, u, fd, w) && ServedOutcome(u, t, fd, event, w)
    else if event.Broken? then
      var all := Arrived(s, fd, w);
      if Passing(s, fd, all) != [] && w.forwarded.write.WriteFailed? then PairIsGone(s, t, fd)
      else LeftBehind(s, t, fd, Passing(s, fd, all))
    else ServedOutcome(s, t, fd, event, w)
  }

  /** The client is routed again, or given up after three retries. */
  ghost predicate RetryOutcome(s: State, t: State, fd: Fd, w: World)
    requires Inv(s, 0) && fd in s.clientOf
  {
    BackendPeer(s, fd);
    var u, c := CloseBackendOnly(s, fd), s.clientOf[fd];
    var out := u.(conns := u.conns - {c});
    if s.conns[c].retriesMade >= 3 then t == out.(used := t.used)
    else RoutedBy(out, t, c, s.conns[c].(peer := None, retriesMade := s.conns[c].retriesMade + 1),
                  s.conns[c].retriesMade + 1, w.attempts, w.now)
  }

  ghost predicate ServedOutcome(s: State, t: State, fd: Fd, event: Event, w: World) {
    if fd !in s.conns || fd !in s.clientOf then t == s
    else if event.Readable? then BackendReadOutcome(s, t, fd, w)
    else WriteOutcome(s, t, fd, w, true)
  }

  lemma ServedMeans(s: State, fd: Fd, event: Event, w: World)
    requires Inv(s, 0) && (fd in s.conns ==> fd in s.clientOf && s.conns[fd].phase.Established?)
    ensures ServedOutcome(s, ServeBackend(s, fd, event, w), fd, event, w)
  {
    hide Inv, BackendRead, Flush, BackendReadOutcome, WriteOutcome;
    if fd in s.conns {
      if event.Readable? {
        BackendReadMeans(s, fd, w);
      } else {
        FlushMeans(s, fd, w, true);
      }
    }
  }

  lemma BrokenMeans(s: State, fd: Fd, w: World)
    requires Inv(s, 0) && fd in s.clientOf && fd in s.conns && s.conns[fd].phase.Established?
    ensures var t := LeaveClient(ForwardFrom(Read(s, fd, Delivered(s.conns[fd], w.read)), fd, w.forwarded, w.now), fd);
      var all := Arrived(s, fd, w);
      if Passing(s, fd, all) != [] && w.forwarded.write.WriteFailed? then PairIsGone(s, t, fd)
      else LeftBehind(s, t, fd, Passing(s, fd, all))
  {
    hide Inv, Read, ForwardFrom, LeaveClient, Arrived, Passing, PairIsGone, ReadFrom, HeldBack, Ends;
    BackendPeer(s, fd);
    ReadMeans(s, fd, w);
    var t := Read(s, fd, Delivered(s.conns[fd], w.read));
    PassingAfterRead(s, t, fd, t.conns[fd].readBuf);
    LastForward(t, fd, w.forwarded, w.now);
    if Passing(s, fd, Arrived(s, fd, w)) != [] && w.forwarded.write.WriteFailed? {
      GoneAfterRead(s, t, LeaveClient(ForwardFrom(t, fd, w.forwarded, w.now), fd), fd);
    }
  }

  lemma RetryMeans(s: State, fd: Fd, w: World)
    requires Inv(s, 0) && fd in s.clientOf && fd in s.conns && s.conns[fd].phase.Connecting?
    ensures RetryOutcome(s, Retried(s, fd, w), fd, w)
  {
    hide Inv, RetryBackend, CloseBackendOnly, RoutedBy, CanRetry;
    BackendPeer(s, fd);
    RetryEffect(s, fd, w.attempts, w.now);
  }

  /** Every event of a backend, whatever the system calls return. */
  lemma BackendEventMeans(s: State, fd: Fd, event: Event, w: World)
    requires Inv(s, 0)
    ensures fd !in s.conns ==> BackendEvent(s, fd, event, w) == s
    ensures fd in s.clientOf ==> BackendOutcome(s, BackendEvent(s, fd, event, w), fd, event, w)
  {
    if fd in s.clientOf {
      BackendPeer(s, fd);
      BackendPhase(s, fd);
      hide Inv, BackendEvent, BackendOutcome;
      if Late(s, fd, w) {
        BackendStalls(s, fd, event, w);
      } else if s.conns[fd].phase.Connecting? {
        BackendConnects(s, fd, event, w);
      } else {
        BackendIsServed(s, fd, event, w);
      }
    }
  }

  lemma BackendStalls(s: State, fd: Fd, event: Event, w: World)
    requires Inv(s, 0) && fd in s.clientOf && fd in s.conns && !s.conns[fd].phase.Closed? && Late(s, fd, w)
    ensures BackendOutcome(s, BackendEvent(s, fd, event, w), fd, event, w)
  {
    hide Inv, Close, PairIsGone;
    CloseTakesPair(s, fd);
  }

  lemma BackendConnects(s: State, fd: Fd, event: Event, w: World)
    requires Inv(s, 0) && fd in s.clientOf && fd in s.conns && s.conns[fd].phase.Connecting? && !Late(s, fd, w)
    ensures BackendOutcome(s, BackendEvent(s, fd, event, w), fd, event, w)
  {
    hide Inv, Retried, Opened, ServeBackend, RetryOutcome, OpenedOutcome, ServedOutcome;
    BackendPeer(s, fd);
    if ConnectFails(s, fd, event, w) {
      RetryMeans(s, fd, w);
    } else {
      OpenedMeans(s, fd, w);
      OpenedRoles(s, Opened(s, fd, w), fd, w);
      ServedMeans(Opened(s, fd, w), fd, event, w);
    }
  }

  lemma BackendIsServed(s: State, fd: Fd, event: Event, w: World)
    requires Inv(s, 0) && fd in s.clientOf && fd in s.conns && s.conns[fd].phase.Established? && !Late(s, fd, w)
    ensures BackendOutcome(s, BackendEvent(s, fd, event, w), fd, event, w)
  {
    hide Inv, ServeBackend, LeaveClient, ForwardFrom, Read, ServedOutcome, LeftBehind, PairIsGone, Arrived, Passing;
    BackendPeer(s, fd);
    if event.Broken? {
      BrokenMeans(s, fd, w);
    } else {
      ServedMeans(s, fd, event, w);
    }
  }

  lemma BackendPhase(s: State, fd: Fd)
    requires Inv(s, 0) && fd in s.clientOf
    ensures fd in s.conns && (s.conns[fd].phase.Connecting? || s.conns[fd].phase.Established?)
  {
    hide Linked, RetriesRecorded, Counted, Gauged, Budgeted, Sound;
    OldPair(s, fd);
    SoundAt(s, fd);
  }

  lemma OpenedRoles(s: State, t: State, fd: Fd, w: World)
    requires fd in s.conns && fd in s.clientOf && s.clientOf[fd] in s.conns && OpenedOutcome(s, t, fd, w)
    ensures fd in t.conns ==> fd in t.clientOf && t.conns[fd].phase.Established?
  {
  }

  /** `handle_client_event`. A client stalled for too long, or whose socket broke, takes its backend
      along. A handshake routes it, waits, or closes it. Otherwise it is read from or written to. */
  ghost predicate ClientOutcome(s: State, t: State, fd: Fd, event: Event, w: World)
    requires fd in s.conns
  {
    if Overdue(s, fd, w) || event.Broken? then PairIsGone(s, t, fd)
    else if s.conns[fd].phase.Handshake? then
      match w.handshake
      case HandshakeFinished =>
        RoutedBy(s.(conns := s.conns - {fd}), t, fd, s.conns[fd].(phase := Established), 0, w.attempts, w.now)
      case HandshakePending => t == s
      case HandshakeFailed => PairIsGone(s, t, fd)
    else if event.Readable? then ClientReadOutcome(s, t, fd, w)
    else WriteOutcome(s, t, fd, w, false)
  }

  /** Every event of a client, whatever the system calls return. */
  lemma ClientEventMeans(s: State, fd: Fd, event: Event, w: World)
    requires Inv(s, 0)
    ensures fd !in s.conns ==> ClientEvent(s, fd, event, w) == s
    ensures fd in s.conns && fd !in s.clientOf ==> ClientOutcome(s, ClientEvent(s, fd, event, w), fd, event, w)
  {
    if fd in s.conns && fd !in s.clientOf {
      hide Inv, ClientEvent, ClientOutcome;
      ClientPhase(s, fd);
      if Late(s, fd, w) || event.Broken? {
        ClientBreaks(s, fd, event, w);
      } else if s.conns[fd].phase.Handshake? {
        ClientShakesHands(s, fd, event, w);
      } else {
        ClientIsServed(s, fd, event, w);
      }
    }
  }

  lemma ClientBreaks(s: State, fd: Fd, event: Event, w: World)
    requires Inv(s, 0) && fd in s.conns && !s.conns[fd].phase.Closed? && (Late(s, fd, w) || event.Broken?)
    ensures ClientOutcome(s, ClientEvent(s, fd, event, w), fd, event, w)
  {
    hide Inv, Close, PairIsGone;
    CloseTakesPair(s, fd);
  }

  lemma ClientShakesHands(s: State, fd: Fd, event: Event, w: World)
    requires Inv(s, 0) && fd in s.conns && s.conns[fd].phase.Handshake? && !Late(s, fd, w) && !event.Broken?
    ensures ClientOutcome(s, ClientEvent(s, fd, event, w), fd, event, w)
  {
    hide Inv, Close, PairIsGone, FinishHandshake, RoutedBy;
    CloseTakesPair(s, fd);
    HandshakeEffect(s, fd, w.attempts, w.now);
  }

  lemma ClientIsServed(s: State, fd: Fd, event: Event, w: World)
    requires Inv(s, 0) && fd in s.conns && s.conns[fd].phase.Established? && !Late(s, fd, w) && !event.Broken?
    ensures ClientOutcome(s, ClientEvent(s, fd, event, w), fd, event, w)
  {
    hide Inv, ClientRead, Flush, ClientReadOutcome, WriteOutcome;
    if event.Readable? {
      ClientReadMeans(s, fd, w);
    } else {
      FlushMeans(s, fd, w, false);
    }
  }

  lemma ClientPhase(s: State, fd: Fd)
    requires Inv(s, 0) && fd in s.conns && fd !in s.clientOf
    ensures s.conns[fd].phase.Handshake? || s.conns[fd].phase.Established?
  {
    hide Linked, RetriesRecorded, Counted, Gauged, Budgeted, Sound;
    SoundAt(s, fd);
  }
}
