/** The reactor callbacks. Each one is proved to be a run of the primitive steps, so that
    whatever holds over all runs holds after every event. A callback that closes the
    connection it works on ends there. */
module EventHandlers {
  import opened Collections
  import opened Lifecycle
  import opened LifecycleInvariants
  import opened LifecycleClosing
  import opened LifecycleConnecting
  import opened LifecycleBytes
  import opened LifecycleRuns
  import opened ProxyTables
  import opened EventEffects

  // ---------------------------------------------------------------- one step at a time

  /** The tables are in order and have been reached from `start` by `trace`, in TCP mode; every
      pair that carried its bytes at the start still does. */
  ghost predicate On(p: Tables, start: State, trace: seq<Step>)
    reads p
  {
    Follows(p.View(), start, trace)
  }

  ghost predicate Follows(s: State, start: State, trace: seq<Step>) {
    && Inv(s, 0) && s == Run(start, trace)
    && TcpOnly(trace)
    && (Streams(start) ==> Streams(s))
  }

  /** What an event adds to a run is a longer run, still in TCP mode. */
  lemma {:induction false} RunsJoin(s: State, before: seq<Step>, after: seq<Step>)
    ensures Run(Run(s, before), after) == Run(s, before + after)
    ensures TcpOnly(before) && TcpOnly(after) ==> TcpOnly(before + after)
    decreases |before|
  {
    hide Apply;
    if before == [] {
      assert before + after == after;
    } else {
      assert (before + after)[1..] == before[1..] + after;
      RunsJoin(Apply(s, before[0]), before[1..], after);
    }
  }

  lemma OneStep(s: State, step: Step)
    ensures Run(s, [step]) == Apply(s, step)
  {
    hide Apply;
    assert [step][1..] == [];
    assert Run(Apply(s, step), []) == Apply(s, step);
  }

  /** Every step but a rewrite extends a run by its own effect. */
  lemma ExtendBy(start: State, trace: seq<Step>, s: State, step: Step, t: State)
    requires Follows(s, start, trace) && t == Apply(s, step) && !step.Rewriting?
    ensures Follows(t, start, trace + [step])
  {
    hide Inv, Run, Apply, Streams;
    RunsJoin(start, trace, [step]);
    assert Run(s, [step]) == t by { OneStep(s, step); }
    StepKeepsInv(s, step);
    if Streams(s) {
      StepKeepsStreams(s, step);
    }
  }

  lemma ClosingApplies(s: State, fd: Fd)
    ensures Apply(s, Closing(fd)) == Close(s, fd)
  {
    hide Close;
  }

  lemma BackendClosingApplies(s: State, fd: Fd)
    requires fd in s.clientOf
    ensures Apply(s, BackendClosing(fd)) == CloseBackendOnly(s, fd)
  {
    hide CloseBackendOnly;
  }

  lemma ReadingApplies(s: State, fd: Fd, r: ReadResult)
    requires fd in s.conns && s.conns[fd].phase.Established? && ReadFits(s.conns[fd], r)
    ensures Apply(s, Reading(fd, r)) == Read(s, fd, r)
  {
    hide Read;
  }

  lemma WritingApplies(s: State, fd: Fd, r: WriteResult)
    requires fd in s.conns && s.conns[fd].phase.Established? && WriteFits(s.conns[fd], r)
    ensures Apply(s, Writing(fd, r)) == Write(s, fd, r)
  {
    hide Write;
  }

  lemma ForwardingApplies(s: State, from: Fd, to: Fd, r: WriteResult, kernelBusy: bool, now: Time)
    requires MayForward(s, from, to, r)
    ensures Apply(s, Forwarding(from, to, r, kernelBusy, now)) == Forward(s, from, to, r, kernelBusy, now)
  {
    hide Forward;
  }

  lemma PressureApplies(s: State, fd: Fd, now: Time)
    ensures Apply(s, PressureStarted(fd, now)) == StartPressure(s, fd, now)
  {
    hide StartPressure;
  }

  lemma ConnectedApplies(s: State, fd: Fd)
    requires fd in s.conns && s.conns[fd].phase.Connecting?
    ensures Apply(s, Connected(fd)) == Establish(s, fd)
  {
    hide Establish;
  }

  lemma HandshakeApplies(s: State, fd: Fd, attempts: seq<Attempt>, now: Time)
    requires fd in s.conns && s.conns[fd].phase.Handshake? && AllFit(s, fd, attempts)
    ensures Apply(s, HandshakeDone(fd, attempts, now)) == FinishHandshake(s, fd, attempts, now)
  {
    hide FinishHandshake, AllFit;
  }

  lemma ConnectFailedApplies(s: State, fd: Fd, attempts: seq<Attempt>, now: Time)
    requires fd in s.clientOf && fd in s.conns && s.conns[fd].phase.Connecting?
    requires AllFit(CloseBackendOnly(s, fd), s.clientOf[fd], attempts)
    requires s.clientOf[fd] != fd && s.clientOf[fd] in s.conns
    ensures Apply(s, ConnectFailed(fd, attempts, now)) ==
      if CanRetry(s, fd) then RetryBackend(s, fd, attempts, now) else Close(s, fd)
  {
    hide RetryBackend, Close, CloseBackendOnly, AllFit;
  }

  /** A client is not its own backend. */
  lemma InvGivesClients(s: State, fd: Fd)
    requires Inv(s, 0) && fd in s.clientOf
    ensures s.clientOf[fd] != fd && fd in s.conns && s.clientOf[fd] in s.conns
  {
    hide Sound;
    OldPair(s, fd);
  }

  /** Only buffers have changed. */
  ghost predicate SameRoles(s: State, t: State) {
    && t.clientOf == s.clientOf && t.conns.Keys == s.conns.Keys
    && (forall f :: f in s.conns ==> SameRole(s.conns[f], t.conns[f]))
  }

  lemma ShiftWriteRoles(s: State, from: Fd, to: Fd, r: WriteResult)
    requires from in s.conns && to in s.conns && from != to && WriteFits(Shift(s, from, to).conns[to], r)
    ensures SameRoles(s, Write(Shift(s, from, to), to, r))
  {
    hide Portion;
  }

  lemma CloseTakesPeer(s: State, fd: Fd, peer: Fd)
    requires Inv(s, 0) && fd in s.conns && s.conns[fd].peer == Some(peer)
    ensures fd !in Close(s, fd).conns && peer !in Close(s, fd).conns
  {
    hide Linked, Sound, Close;
    CloseRemovesPair(s, fd);
  }

  lemma PressureRoles(s: State, t: State, f: Fd, now: Time)
    requires SameRoles(s, t)
    ensures SameRoles(s, StartPressure(t, f, now)) && SameRoles(s, ClearPressure(t, f))
  {
  }

  /** Forwarding either closes the pair or leaves the tables and everybody's roles alone. */
  lemma ForwardRoles(s: State, from: Fd, to: Fd, r: WriteResult, kernelBusy: bool, now: Time)
    requires Inv(s, 0) && MayForward(s, from, to, r)
    ensures var t := Forward(s, from, to, r, kernelBusy, now);
      (from !in t.conns && to !in t.conns) || SameRoles(s, t)
  {
    hide Inv, SameRoles, Close, Shift, Write, Portion, WriteFits, StartPressure, ClearPressure;
    var t := Shift(s, from, to);
    SelfRoles(s);
    InvBothPeers(s, from, to);
    PressureRoles(s, s, from, now);
    if CanForward(s, from, to) && Portion(s.conns[from], s.conns[to]) != 0 {
      ShiftTables(s, from, to);
      ShiftWriteRoles(s, from, to, r);
      ShiftKeepsInv(s, from, to);
      WriteKeepsInv(t, to, r);
      var u := Write(t, to, r);
      PressureRoles(s, u, from, now);
      RolesKeepPeer(s, u, to);
      CloseTakesPeer(u, to, from);
    }
  }

  lemma SelfRoles(s: State)
    ensures SameRoles(s, s)
  {
  }

  lemma InvBothPeers(s: State, f: Fd, p: Fd)
    requires Inv(s, 0) && f in s.conns && s.conns[f].peer == Some(p)
    ensures p in s.conns && s.conns[p].peer == Some(f)
  {
    hide Linked, Sound;
    BothPeers(s, f, p);
  }

  lemma RolesKeepPeer(s: State, t: State, f: Fd)
    requires SameRoles(s, t) && f in s.conns
    ensures f in t.conns && t.conns[f].peer == s.conns[f].peer
  {
    assert SameRole(s.conns[f], t.conns[f]);
  }

  lemma InvGivesPeers(s: State)
    requires Inv(s, 0)
    ensures forall f :: f in s.conns && s.conns[f].peer.Some? ==>
      && s.conns[f].peer.value != f && s.conns[f].peer.value in s.conns
      && s.conns[s.conns[f].peer.value].peer == Some(f)
  {
    forall f | f in s.conns && s.conns[f].peer.Some?
      ensures s.conns[f].peer.value != f && s.conns[f].peer.value in s.conns
      ensures s.conns[s.conns[f].peer.value].peer == Some(f)
    {
      hide Linked, Sound;
      PeerFacts(s, f);
    }
  }

  method CloseStep(p: Tables, fd: Fd, ghost start: State, ghost trace: seq<Step>) returns (ghost longer: seq<Step>)
    requires On(p, start, trace)
    modifies p
    ensures On(p, start, longer) && p.View() == Close(old(p.View()), fd)
  {
    hide Inv, Run, Apply, Close, Streams;
    ghost var s := p.View();
    InvGivesPeers(s);
    p.CloseConnection(fd);
    longer := trace + [Closing(fd)];
    ClosingApplies(s, fd);
    ExtendBy(start, trace, s, Closing(fd), p.View());
  }

  method BackendCloseStep(p: Tables, fd: Fd, ghost start: State, ghost trace: seq<Step>)
      returns (ghost longer: seq<Step>)
    requires On(p, start, trace) && fd in p.clientOf
    modifies p
    ensures On(p, start, longer) && p.View() == CloseBackendOnly(old(p.View()), fd)
  {
    hide Inv, Run, Apply, CloseBackendOnly;
    ghost var s := p.View();
    InvGivesPeers(s);
    p.CloseBackendConnectionOnly(fd);
    longer := trace + [BackendClosing(fd)];
    BackendClosingApplies(s, fd);
    ExtendBy(start, trace, s, BackendClosing(fd), p.View());
  }

  method ReadStep(p: Tables, fd: Fd, r: ReadResult, ghost start: State, ghost trace: seq<Step>)
    returns (again: bool, ghost longer: seq<Step>)
    requires On(p, start, trace) && fd in p.conns && p.conns[fd].phase.Established?
    modifies p
    ensures On(p, start, longer)
    ensures p.View() == Read(old(p.View()), fd, Delivered(old(p.conns)[fd], r))
    ensures again == ReadFrom(old(p.conns)[fd], old(p.used), old(p.limit), Delivered(old(p.conns)[fd], r)).2
    ensures p.clientOf == old(p.clientOf) && p.conns.Keys == old(p.conns.Keys)
    ensures p.conns[fd].phase.Established? && p.conns[fd].peer == old(p.conns)[fd].peer
  {
    hide Inv, Run, Apply;
    ghost var s := p.View();
    var d := Delivered(p.conns[fd], r);
    again := p.ReadFromFd(fd, d);
    longer := trace + [Reading(fd, d)];
    ReadingApplies(s, fd, d);
    ExtendBy(start, trace, s, Reading(fd, d), p.View());
  }

  method WriteStep(p: Tables, fd: Fd, r: WriteResult, ghost start: State, ghost trace: seq<Step>)
    returns (ok: bool, ghost longer: seq<Step>)
    requires On(p, start, trace) && fd in p.conns && p.conns[fd].phase.Established?
    modifies p
    ensures On(p, start, longer)
    ensures p.View() == Write(old(p.View()), fd, TakenUp(old(p.conns)[fd], r))
    ensures ok == WriteTo(old(p.conns)[fd], old(p.used), TakenUp(old(p.conns)[fd], r)).2
    ensures p.clientOf == old(p.clientOf) && p.conns.Keys == old(p.conns.Keys)
    ensures p.conns[fd].phase.Established? && p.conns[fd].peer == old(p.conns)[fd].peer
  {
    hide Inv, Run, Apply;
    ghost var s := p.View();
    var d := TakenUp(p.conns[fd], r);
    ok := p.WriteToFd(fd, d);
    longer := trace + [Writing(fd, d)];
    WritingApplies(s, fd, d);
    ExtendBy(start, trace, s, Writing(fd, d), p.View());
  }

  method ForwardStep(p: Tables, from: Fd, to: Fd, r: WriteResult, kernelBusy: bool, now: Time,
      ghost start: State, ghost trace: seq<Step>)
    returns (ghost longer: seq<Step>)
    requires On(p, start, trace) && from in p.conns && p.conns[from].peer == Some(to)
    modifies p
    ensures On(p, start, longer)
    ensures to in old(p.conns) && from != to
    ensures p.View() == Forward(old(p.View()), from, to, TakenUp(Shift(old(p.View()), from, to).conns[to], r),
                                kernelBusy, now)
    ensures || (from !in p.conns && to !in p.conns)
            || SameRoles(old(p.View()), p.View())
  {
    hide Inv, Run, Apply, Forward, SameRoles;
    ghost var s := p.View();
    InvGivesPeers(s);
    var moved := p.conns[from].readBuf[..Portion(p.conns[from], p.conns[to])];
    var offered := p.conns[to].(writeBuf := p.conns[to].writeBuf + moved);
    var d := TakenUp(offered, r);
    assert MayForward(s, from, to, d);
    hide MayForward;
    p.ForwardData(from, to, d, kernelBusy, now);
    longer := trace + [Forwarding(from, to, d, kernelBusy, now)];
    ForwardingApplies(s, from, to, d, kernelBusy, now);
    ForwardRoles(s, from, to, d, kernelBusy, now);
    ExtendBy(start, trace, s, Forwarding(from, to, d, kernelBusy, now), p.View());
  }

  method PressureStep(p: Tables, fd: Fd, now: Time, ghost start: State, ghost trace: seq<Step>)
    returns (ghost longer: seq<Step>)
    requires On(p, start, trace)
    modifies p
    ensures On(p, start, longer)
    ensures p.View() == StartPressure(old(p.View()), fd, now)
    ensures p.conns == old(p.conns) && p.clientOf == old(p.clientOf)
  {
    hide Inv, Run, Apply;
    ghost var s := p.View();
    p.StartTracking(fd, now);
    longer := trace + [PressureStarted(fd, now)];
    PressureApplies(s, fd, now);
    ExtendBy(start, trace, s, PressureStarted(fd, now), p.View());
  }

  method EstablishStep(p: Tables, fd: Fd, ghost start: State, ghost trace: seq<Step>) returns (ghost longer: seq<Step>)
    requires On(p, start, trace) && fd in p.conns && p.conns[fd].phase.Connecting?
    modifies p
    ensures On(p, start, longer)
    ensures p.View() == Establish(old(p.View()), fd)
    ensures p.clientOf == old(p.clientOf) && p.conns.Keys == old(p.conns.Keys)
    ensures p.conns[fd].phase.Established? && p.conns[fd].peer == old(p.conns)[fd].peer
  {
    hide Inv, Run, Apply;
    ghost var s := p.View();
    p.EstablishBackend(fd);
    longer := trace + [Connected(fd)];
    ConnectedApplies(s, fd);
    ExtendBy(start, trace, s, Connected(fd), p.View());
  }

  /** A connect failed: retry with another backend, or close if there is no client to retry for. */
  method RetryOrCloseStep(p: Tables, fd: Fd, w: World, ghost start: State, ghost trace: seq<Step>)
      returns (ghost longer: seq<Step>)
    requires On(p, start, trace) && fd in p.clientOf && fd in p.conns && p.conns[fd].phase.Connecting?
    requires AllFit(CloseBackendOnly(p.View(), fd), p.clientOf[fd], w.attempts)
    modifies p
    ensures p.View() == Retried(old(p.View()), fd, w)
    ensures On(p, start, longer)
  {
    hide Inv, Run, Apply, RetryBackend, Close, CloseBackendOnly, CanRetry, AllFit;
    ghost var s := p.View();
    InvGivesPeers(s);
    InvGivesClients(s, fd);
    var retried := p.TryRetryOnBackendError(fd, w.attempts, w.now);
    if !retried {
      p.CloseConnection(fd);
    }
    longer := trace + [ConnectFailed(fd, w.attempts, w.now)];
    ConnectFailedApplies(s, fd, w.attempts, w.now);
    ExtendBy(start, trace, s, ConnectFailed(fd, w.attempts, w.now), p.View());
  }

  method HandshakeStep(p: Tables, fd: Fd, w: World, ghost start: State, ghost trace: seq<Step>)
      returns (ghost longer: seq<Step>)
    requires On(p, start, trace) && fd in p.conns && p.conns[fd].phase.Handshake?
    requires AllFit(p.View(), fd, w.attempts)
    modifies p
    ensures p.View() == FinishHandshake(old(p.View()), fd, w.attempts, w.now)
    ensures On(p, start, longer)
  {
    hide Inv, Run, Apply, FinishHandshake, AllFit;
    ghost var s := p.View();
    p.RouteAfterHandshake(fd, w.attempts, w.now);
    longer := trace + [HandshakeDone(fd, w.attempts, w.now)];
    HandshakeApplies(s, fd, w.attempts, w.now);
    ExtendBy(start, trace, s, HandshakeDone(fd, w.attempts, w.now), p.View());
  }

  // ---------------------------------------------------------------- the callbacks

  method EstablishedPeer(p: Tables, fd: Fd) returns (peer: Option<Fd>)
    requires fd in p.conns
    ensures peer.Some? ==> p.conns[fd].peer == peer && peer.value in p.conns && p.conns[peer.value].phase.Established?
    ensures peer.None? && p.conns[fd].peer.Some? && p.conns[fd].peer.value in p.conns ==>
      !p.conns[p.conns[fd].peer.value].phase.Established?
  {
    peer := p.conns[fd].peer;
    if peer.Some? && (peer.value !in p.conns || !p.conns[peer.value].phase.Established?) {
      peer := None;
    }
  }

  /** Forwards what has been read, if there is an established peer to forward to. */
  method ForwardRead(p: Tables, fd: Fd, answer: Answer, w: World, ghost start: State, ghost trace: seq<Step>)
    returns (open: bool, ghost longer: seq<Step>)
    requires On(p, start, trace) && fd in p.conns
    modifies p
    ensures p.View() == ForwardFrom(old(p.View()), fd, answer, w.now)
    ensures On(p, start, longer)
    ensures open <==> fd in p.conns
    ensures open ==> p.clientOf == old(p.clientOf) && SameRole(old(p.conns)[fd], p.conns[fd])
  {
    hide Inv, Run;
    longer := trace;
    var peer := EstablishedPeer(p, fd);
    if peer.Some? && p.conns[fd].readBuf != [] {
      longer := ForwardStep(p, fd, peer.value, answer.write, answer.busy, w.now, start, trace);
    }
    open := fd in p.conns;
  }

  method TimedOut(p: Tables, fd: Fd, w: World) returns (late: bool)
    ensures late == Late(p.View(), fd, w)
  {
    late := fd in p.pressure && w.now - p.pressure[fd] >= w.pressureTimeout;
  }

  /** Bytes the client sent while its backend was still connecting. */
  method ForwardToBackend(p: Tables, fd: Fd, client: Fd, w: World, ghost start: State, ghost trace: seq<Step>)
    returns (ghost longer: seq<Step>)
    requires On(p, start, trace) && fd in p.conns && p.conns[fd].peer == Some(client)
    modifies p
    ensures client in old(p.conns) && client != fd
    ensures p.View() == Forward(old(p.View()), client, fd,
                                TakenUp(Shift(old(p.View()), client, fd).conns[fd], w.early.write), w.early.busy, w.now)
    ensures On(p, start, longer)
    ensures fd in p.conns ==> p.clientOf == old(p.clientOf) && SameRole(old(p.conns)[fd], p.conns[fd])
  {
    hide Inv, Run;
    InvGivesPeers(p.View());
    longer := ForwardStep(p, client, fd, w.early.write, w.early.busy, w.now, start, trace);
  }

  /** The common end of both read branches: block, forward, or go on. */
  method ReadAndForward(p: Tables, fd: Fd, w: World, ghost start: State, ghost trace: seq<Step>)
    returns (stopped: bool, ghost longer: seq<Step>)
    requires On(p, start, trace) && fd in p.conns && p.conns[fd].phase.Established?
    modifies p
    ensures (p.View(), stopped) == ReadOn(old(p.View()), fd, w)
    ensures On(p, start, longer)
    ensures stopped ==> fd in p.conns && p.clientOf == old(p.clientOf) && p.conns[fd].phase.Established?
  {
    hide Inv, Run;
    var again, open := true, true;
    stopped := false;
    again, longer := ReadStep(p, fd, w.read, start, trace);
    if p.conns[fd].memoryBlocked {
      longer := PressureStep(p, fd, w.now, start, longer);
      return;
    }
    var full := p.conns[fd].bufferFull;
    open, longer := ForwardRead(p, fd, w.forwarded, w, start, longer);
    stopped := !full && open && !again;
  }

  method BackendReadable(p: Tables, fd: Fd, w: World, ghost start: State, ghost trace: seq<Step>)
      returns (ghost longer: seq<Step>)
    requires On(p, start, trace) && fd in p.conns && fd in p.clientOf && p.conns[fd].phase.Established?
    modifies p
    ensures p.View() == BackendRead(old(p.View()), fd, w)
    ensures On(p, start, longer)
  {
    hide Inv, Run;
    var stopped, open := false, true;
    stopped, longer := ReadAndForward(p, fd, w, start, trace);
    if stopped {
      open, longer := ForwardRead(p, fd, w.last, w, start, longer);
      if open {
        longer := BackendCloseStep(p, fd, start, longer);
      }
    }
  }

  method ClientReadable(p: Tables, fd: Fd, w: World, ghost start: State, ghost trace: seq<Step>)
      returns (ghost longer: seq<Step>)
    requires On(p, start, trace) && fd in p.conns && p.conns[fd].phase.Established?
    modifies p
    ensures p.View() == ClientRead(old(p.View()), fd, w)
    ensures On(p, start, longer)
  {
    hide Inv, Run;
    var stopped, open := false, true;
    stopped, longer := ReadAndForward(p, fd, w, start, trace);
    if stopped {
      InvGivesPeers(p.View());
      var peer := EstablishedPeer(p, fd);
      if peer.Some? {
        open, longer := ForwardRead(p, fd, w.last, w, start, longer);
      } else {
        longer := CloseStep(p, fd, start, longer);
      }
    }
  }

  /** Flush the write buffer and note who still has bytes to send. */
  method FlushAndTrack(p: Tables, fd: Fd, w: World, onlyEstablished: bool, ghost start: State, ghost trace: seq<Step>)
    returns (ghost longer: seq<Step>)
    requires On(p, start, trace) && fd in p.conns && p.conns[fd].phase.Established?
    modifies p
    ensures p.View() == Flush(old(p.View()), fd, w, onlyEstablished)
    ensures On(p, start, longer)
  {
    hide Inv, Run;
    var ok := true;
    ok, longer := WriteStep(p, fd, w.write, start, trace);
    if !ok {
      longer := CloseStep(p, fd, start, longer);
      return;
    }
    if p.conns[fd].writeBuf != [] || w.ownBusy {
      longer := PressureStep(p, fd, w.now, start, longer);
    }
    var peer := p.conns[fd].peer;
    if peer.Some? && peer.value in p.conns && (!onlyEstablished || p.conns[peer.value].phase.Established?) {
      if p.conns[peer.value].writeBuf != [] || w.peerBusy {
        longer := PressureStep(p, peer.value, w.now, start, longer);
      }
    }
  }

  /** The last bytes of a backend whose socket broke go to its client, which stays. */
  method BackendBroken(p: Tables, fd: Fd, w: World, ghost start: State, ghost trace: seq<Step>)
      returns (ghost longer: seq<Step>)
    requires On(p, start, trace) && fd in p.conns && fd in p.clientOf && p.conns[fd].phase.Established?
    modifies p
    ensures On(p, start, longer)
    ensures p.View() == LeaveClient(
      ForwardFrom(Read(old(p.View()), fd, Delivered(old(p.conns)[fd], w.read)), fd, w.forwarded, w.now), fd)
  {
    hide Inv, Run, Streams, ForwardFrom, CloseBackendOnly;
    var again, open := true, true;
    again, longer := ReadStep(p, fd, w.read, start, trace);
    open, longer := ForwardRead(p, fd, w.forwarded, w, start, longer);
    if open {
      longer := BackendCloseStep(p, fd, start, longer);
    }
  }

  /** A connect has succeeded. */
  method OpenBackend(p: Tables, fd: Fd, w: World, ghost start: State, ghost trace: seq<Step>)
      returns (ghost longer: seq<Step>)
    requires On(p, start, trace) && fd in p.conns && p.conns[fd].phase.Connecting?
    modifies p
    ensures On(p, start, longer)
    ensures p.View() == Opened(old(p.View()), fd, w)
    ensures fd in p.conns ==> p.clientOf == old(p.clientOf) && p.conns[fd].phase.Established?
  {
    hide Inv, Run, Streams, Forward;
    longer := EstablishStep(p, fd, start, trace);
    InvGivesPeers(p.View());
    var peer := EstablishedPeer(p, fd);
    if peer.Some? && p.conns[peer.value].readBuf != [] {
      longer := ForwardToBackend(p, fd, peer.value, w, start, longer);
    }
  }

  /** `handle_backend_event`. New sockets get descriptors that are not in use once the failed
      backend has been closed, so the number of that backend may come again. */
  method HandleBackendEvent(p: Tables, fd: Fd, event: Event, w: World) returns (ghost trace: seq<Step>)
    requires Inv(p.View(), 0)
    requires fd in p.conns ==> fd in p.clientOf
    requires fd in p.clientOf ==> AllFit(CloseBackendOnly(p.View(), fd), p.clientOf[fd], w.attempts)
    modifies p
    ensures p.View() == BackendEvent(old(p.View()), fd, event, w)
    ensures On(p, old(p.View()), trace)
    ensures Streams(old(p.View())) ==> Streams(p.View())
  {
    hide Inv, Apply, AllFit;
    ghost var start := p.View();
    trace := [];
    hide Run, Streams, Retried, Opened, BackendRead, Flush, ForwardFrom, Read, Close, CloseBackendOnly, LeaveClient;
    if fd !in p.conns || p.conns[fd].phase.Closed? {
      return;
    }
    var late := TimedOut(p, fd, w);
    if late {
      trace := CloseStep(p, fd, start, trace);
      return;
    }
    if event.Broken? {
      if p.conns[fd].phase.Connecting? {
        trace := RetryOrCloseStep(p, fd, w, start, trace);
      } else if p.conns[fd].phase.Established? {
        trace := BackendBroken(p, fd, w, start, trace);
      } else {
        trace := CloseStep(p, fd, start, trace);
      }
      return;
    }
    if p.conns[fd].phase.Connecting? {
      if (fd in p.connTimes && w.now - p.connTimes[fd] > w.connectTimeout) || !w.socketOk {
        trace := RetryOrCloseStep(p, fd, w, start, trace);
        return;
      }
      trace := OpenBackend(p, fd, w, start, trace);
      if fd !in p.conns {
        return;
      }
    }
    if !p.conns[fd].phase.Established? {
      return;
    }
    if event.Readable? {
      trace := BackendReadable(p, fd, w, start, trace);
    } else {
      trace := FlushAndTrack(p, fd, w, true, start, trace);
    }
  }

  /** `handle_client_event`, for descriptors that are not backends. */
  method HandleClientEvent(p: Tables, fd: Fd, event: Event, w: World) returns (ghost trace: seq<Step>)
    requires Inv(p.View(), 0)
    requires fd in p.conns ==> fd !in p.clientOf
    requires AllFit(p.View(), fd, w.attempts)
    modifies p
    ensures p.View() == ClientEvent(old(p.View()), fd, event, w)
    ensures On(p, old(p.View()), trace)
    ensures Streams(old(p.View())) ==> Streams(p.View())
  {
    hide Inv, Apply, AllFit;
    ghost var start := p.View();
    trace := [];
    hide Run;
    if fd !in p.conns || p.conns[fd].phase.Closed? {
      return;
    }
    var late := TimedOut(p, fd, w);
    if late || event.Broken? {
      trace := CloseStep(p, fd, start, trace);
      return;
    }
    if p.conns[fd].phase.Handshake? {
      if w.handshake.HandshakeFinished? {
        trace := HandshakeStep(p, fd, w, start, trace);
      } else if w.handshake.HandshakeFailed? {
        trace := CloseStep(p, fd, start, trace);
      }
      return;
    }
    if !p.conns[fd].phase.Established? {
      return;
    }
    if event.Readable? {
      trace := ClientReadable(p, fd, w, start, trace);
    } else {
      trace := FlushAndTrack(p, fd, w, false, start, trace);
    }
  }
}
