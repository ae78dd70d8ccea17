/** Reading, writing, forwarding and rewriting: bytes and budget stay in step. */
module LifecycleBytes {
  import opened Collections
  import opened Words
  import opened MemoryBudget
  import opened Lifecycle
  import opened LifecycleInvariants
  import opened LifecycleClosing
  import opened LifecycleConnecting

  // ---------------------------------------------------------------- one connection changes

  /** The parts of a connection that links and counts depend on. */
  ghost predicate SameRole(c: Connection, d: Connection) {
    c.phase == d.phase && c.peer == d.peer && c.accounted == d.accounted && c.retriesMade == d.retriesMade
  }

  /** `t` is `s` with the buffers of `f` changed and the budget moved to match. */
  ghost predicate Rebuffered(s: State, t: State, f: Fd) {
    && f in s.conns && f in t.conns
    && t == s.(conns := s.conns[f := t.conns[f]], used := t.used)
    && SameRole(s.conns[f], t.conns[f])
    && t.used - s.used == AccountedSize(t.conns[f]) - AccountedSize(s.conns[f])
    && t.used <= MAX_LIMIT
    && (t.conns[f].accounted ==> |t.conns[f].writeBuf| <= MAX_BUFFER)
  }

  lemma RebufferedKeepsInv(s: State, t: State, f: Fd)
    requires Inv(s, 0) && Rebuffered(s, t, f)
    ensures Inv(t, 0)
  {
    hide Linked, Sound, RetriesRecorded, Counted, Footprint;
    RebufferedKeepsLinks(s, t, f);
    RebufferedKeepsSound(s, t, f);
    SamePhasesKeepCounts(s, t);
    FootprintUpdate(s.conns, f, t.conns[f]);
  }

  lemma RebufferedKeepsLinks(s: State, t: State, f: Fd)
    requires Linked(s) && RetriesRecorded(s) && Rebuffered(s, t, f)
    ensures Linked(t) && RetriesRecorded(t)
  {
    assert forall g :: g in s.conns ==> SameLinks(s.conns[g], t.conns[g]);
    assert t.conns.Keys == s.conns.Keys && t.nodeOf == s.nodeOf && t.clientOf == s.clientOf && t.retries == s.retries;
    hide Rebuffered, Linked, RetriesRecorded;
    SameLinksKeepLinks(s, t);
  }

  /** Links and retry records see only peers and retry counts. */
  ghost predicate SameLinks(c: Connection, d: Connection) {
    c.peer == d.peer && c.retriesMade == d.retriesMade
  }

  lemma SameLinksKeepLinks(s: State, t: State)
    requires Linked(s) && RetriesRecorded(s)
    requires t.conns.Keys == s.conns.Keys && t.nodeOf == s.nodeOf && t.clientOf == s.clientOf && t.retries == s.retries
    requires forall g :: g in s.conns ==> SameLinks(s.conns[g], t.conns[g])
    ensures Linked(t) && RetriesRecorded(t)
  {
    SameKeys(s);
    forall b | b in t.clientOf
      ensures b in t.conns && t.clientOf[b] in t.conns && t.clientOf[b] !in t.clientOf
      ensures t.conns[b].peer == Some(t.clientOf[b]) && t.conns[t.clientOf[b]].peer == Some(b)
      ensures t.clientOf[b] in t.retries && t.retries[t.clientOf[b]] == t.conns[t.clientOf[b]].retriesMade
    {
      hide Linked;
      OldPair(s, b);
      assert SameLinks(s.conns[b], t.conns[b]) && SameLinks(s.conns[s.clientOf[b]], t.conns[s.clientOf[b]]);
    }
    forall g | g in t.conns && g !in t.clientOf && t.conns[g].peer.Some?
      ensures t.conns[g].peer.value in t.clientOf && t.clientOf[t.conns[g].peer.value] == g
    {
      hide Linked;
      assert SameLinks(s.conns[g], t.conns[g]);
      LoneOrClient(s, g);
    }
    hide Linked;
    LinkedBy(t);
  }

  lemma RebufferedKeepsSound(s: State, t: State, f: Fd)
    requires Sound(s) && Rebuffered(s, t, f)
    ensures Sound(t)
  {
    assert ConnectionOk(s.conns[f], f in s.clientOf);
    assert ConnectionOk(t.conns[f], f in t.clientOf);
    hide ConnectionOk;
  }

  /** A change of one connection keeps the streams if its own pair still carries its bytes. */
  lemma RebufferedKeepsStreams(s: State, t: State, f: Fd)
    requires Streams(s) && Linked(s) && Rebuffered(s, t, f)
    requires StreamOk(t.conns[f])
    requires s.conns[f].peer.Some? && s.conns[f].peer.value in s.conns ==>
      var p := s.conns[s.conns[f].peer.value];
      Carried(t.conns[f], p) && Carried(p, t.conns[f])
    ensures Streams(t)
  {
    hide Carried, StreamOk, Linked, AccountedSize;
    forall b | b in t.clientOf
      ensures b in t.conns && t.clientOf[b] in t.conns
      ensures Carried(t.conns[t.clientOf[b]], t.conns[b]) && Carried(t.conns[b], t.conns[t.clientOf[b]])
    {
      OldPair(s, b);
    }
  }

  /** The pair of `f` carries its bytes, both ways. */
  lemma PairCarries(s: State, f: Fd)
    requires Streams(s) && Linked(s) && f in s.conns && s.conns[f].peer.Some?
    ensures var p := s.conns[f].peer.value;
      p in s.conns && p != f && Carried(s.conns[f], s.conns[p]) && Carried(s.conns[p], s.conns[f])
  {
    hide Carried, StreamOk, Linked;
    if f in s.clientOf {
      OldPair(s, f);
    } else {
      LoneOrClient(s, f);
      OldPair(s, s.conns[f].peer.value);
    }
  }

  // ---------------------------------------------------------------- reading

  /** Limits are 32-bit counts of mebibytes and requests are sizes of buffers in memory, so the
      64-bit sum of what callers ask for does not wrap. */
  lemma ReserveIsExact(used: nat, limit: nat, n: nat)
    requires used <= MAX_LIMIT && 0 < limit <= MAX_LIMIT && 0 < n < WORD64 - MAX_LIMIT
    ensures TryReserve(used, limit, n) == if used + n > limit then (false, used) else (true, used + n)
  {
  }

  /** One read moves the budget by exactly the bytes read, and keeps the connection's role. */
  lemma ReadIsExact(c: Connection, used: nat, limit: nat, r: ReadResult)
    requires used <= MAX_LIMIT && 0 < limit <= MAX_LIMIT && ReadFits(c, r)
    ensures var (d, u, _) := ReadFrom(c, used, limit, r);
      && SameRole(c, d) && d.writeBuf == c.writeBuf && d.sent == c.sent
      && u - used == AccountedSize(d) - AccountedSize(c)
      && u <= MAX_LIMIT
      && (c.accounted && |d.readBuf| != |c.readBuf| ==> u <= limit)
      && (exists bytes :: d.received == c.received + bytes && d.readBuf == c.readBuf + bytes)
      && (|c.readBuf| <= MAX_BUFFER ==> |d.readBuf| <= MAX_BUFFER)
  {
    var (d, u, _) := ReadFrom(c, used, limit, r);
    if |c.readBuf| < MAX_BUFFER {
      ReserveIsExact(used, limit, MAX_BUFFER - |c.readBuf|);
    }
    if d.received == c.received && d.readBuf == c.readBuf {
      assert d.received == c.received + [] && d.readBuf == c.readBuf + [];
    } else {
      assert d.received == c.received + r.bytes && d.readBuf == c.readBuf + r.bytes;
    }
  }

  /** A read that is let through and delivers bytes is counted exactly if and only if there is a
      limit: with a zero limit the reservation is not recorded although the unused part is given back. */
  lemma ReadIsCountedIffLimited(c: Connection, used: nat, limit: nat, bytes: seq<Byte>)
    requires used <= MAX_LIMIT && limit <= MAX_LIMIT && c.accounted
    requires |c.readBuf| < MAX_BUFFER && ReadFits(c, Got(bytes))
    requires limit == 0 || used + (MAX_BUFFER - |c.readBuf|) <= limit
    ensures ReadFrom(c, used, limit, Got(bytes)).1 == used + |bytes| <==> limit > 0
  {
    if limit > 0 {
      ReserveIsExact(used, limit, MAX_BUFFER - |c.readBuf|);
    }
  }

  /** A one-byte read without a limit: the byte is not counted, and 65535 bytes that belong to
      other connections are given back. */
  lemma UnlimitedReadIsNotCounted(b: Byte)
    ensures var c := NewConnection(Established).(accounted := true);
      && ReadFrom(c, 0, 0, Got([b])).0.readBuf == [b]
      && ReadFrom(c, 0, 0, Got([b])).1 == 0
      && ReadFrom(c, 65535, 0, Got([b])).1 == 0
  {
  }

  lemma ReadRebuffers(s: State, f: Fd, r: ReadResult)
    requires Budgeted(s, 0) && Sound(s) && f in s.conns && ReadFits(s.conns[f], r)
    ensures Rebuffered(s, Read(s, f, r), f)
  {
    hide Sound, Footprint, ReadFits;
    SoundAt(s, f);
    ReadIsExact(s.conns[f], s.used, s.limit, r);
    hide ReadFrom, ConnectionOk, SameRole;
    WriteBufferOk(s.conns[f], f in s.clientOf);
  }

  lemma WriteBufferOk(c: Connection, isBackend: bool)
    requires ConnectionOk(c, isBackend)
    ensures c.accounted ==> |c.writeBuf| <= MAX_BUFFER
  {
  }

  /** Reading more from one side keeps both directions of the pair. */
  lemma ReadCarries(c: Connection, d: Connection, p: Connection, bytes: seq<Byte>)
    requires Carried(c, p) && Carried(p, c)
    requires d.received == c.received + bytes && d.readBuf == c.readBuf + bytes
    requires d.sent == c.sent && d.writeBuf == c.writeBuf
    ensures Carried(d, p) && Carried(p, d)
  {
    assert p.sent + p.writeBuf + (c.readBuf + bytes) == (p.sent + p.writeBuf + c.readBuf) + bytes;
  }

  lemma ReadKeepsInv(s: State, f: Fd, r: ReadResult)
    requires Inv(s, 0) && f in s.conns && ReadFits(s.conns[f], r)
    ensures Inv(Read(s, f, r), 0)
  {
    hide Linked, Sound, RetriesRecorded, Counted, Gauged, Budgeted, Rebuffered, Read;
    ReadRebuffers(s, f, r);
    RebufferedKeepsInv(s, Read(s, f, r), f);
  }

  lemma ReadKeepsStreams(s: State, f: Fd, r: ReadResult)
    requires Linked(s) && Sound(s) && Budgeted(s, 0) && Streams(s)
    requires f in s.conns && s.conns[f].phase.Established? && ReadFits(s.conns[f], r)
    ensures Streams(Read(s, f, r))
  {
    var t, c := Read(s, f, r), s.conns[f];
    hide Linked, Sound, Footprint, ReadFits, Carried, Rebuffered, Streams;
    ReadRebuffers(s, f, r);
    ReadIsExact(c, s.used, s.limit, r);
    StreamAt(s, f);
    var bytes :| t.conns[f].received == c.received + bytes && t.conns[f].readBuf == c.readBuf + bytes;
    if c.peer.Some? {
      PairCarries(s, f);
      ReadCarries(c, t.conns[f], s.conns[c.peer.value], bytes);
    }
    RebufferedKeepsStreams(s, t, f);
  }

  // ---------------------------------------------------------------- writing

  lemma WriteIsExact(c: Connection, used: nat, r: WriteResult)
    requires WriteFits(c, r) && AccountedSize(c) <= used <= MAX_LIMIT
    ensures var (d, u, _) := WriteTo(c, used, r);
      && SameRole(c, d) && d.readBuf == c.readBuf && d.received == c.received
      && u - used == AccountedSize(d) - AccountedSize(c)
      && u <= used
      && d.sent + d.writeBuf == c.sent + c.writeBuf
      && |d.writeBuf| <= |c.writeBuf|
  {
  }

  lemma FootprintHolds(conns: map<Fd, Connection>, f: Fd)
    requires f in conns
    ensures AccountedSize(conns[f]) <= Footprint(conns)
  {
    FootprintWithout(conns, f);
  }

  lemma WriteRebuffers(s: State, f: Fd, r: WriteResult)
    requires Budgeted(s, 0) && Sound(s) && f in s.conns && WriteFits(s.conns[f], r)
    ensures Rebuffered(s, Write(s, f, r), f)
  {
    hide Sound, Footprint;
    SoundAt(s, f);
    FootprintHolds(s.conns, f);
    WriteIsExact(s.conns[f], s.used, r);
    hide WriteTo, ConnectionOk, SameRole;
    WriteBufferOk(s.conns[f], f in s.clientOf);
  }

  lemma WriteKeepsInv(s: State, f: Fd, r: WriteResult)
    requires Inv(s, 0) && f in s.conns && WriteFits(s.conns[f], r)
    ensures Inv(Write(s, f, r), 0)
  {
    hide Linked, Sound, RetriesRecorded, Counted, Gauged, Budgeted, Rebuffered, Write;
    WriteRebuffers(s, f, r);
    RebufferedKeepsInv(s, Write(s, f, r), f);
  }

  lemma WriteKeepsStreams(s: State, f: Fd, r: WriteResult)
    requires Linked(s) && Sound(s) && Budgeted(s, 0) && Streams(s)
    requires f in s.conns && s.conns[f].phase.Established? && WriteFits(s.conns[f], r)
    ensures Streams(Write(s, f, r))
  {
    var t, c := Write(s, f, r), s.conns[f];
    hide Linked, Sound, Footprint, Rebuffered, Streams;
    WriteRebuffers(s, f, r);
    FootprintHolds(s.conns, f);
    WriteIsExact(c, s.used, r);
    StreamAt(s, f);
    if c.peer.Some? {
      PairCarries(s, f);
    }
    RebufferedKeepsStreams(s, t, f);
  }

  // ---------------------------------------------------------------- rewriting

  lemma RewriteIsExact(c: Connection, used: nat, limit: nat, edited: seq<Byte>)
    requires AccountedSize(c) <= used <= MAX_LIMIT && 0 < limit <= MAX_LIMIT && |edited| < WORD64 - MAX_LIMIT
    ensures var (d, u) := RewriteIn(c, used, limit, edited);
      && SameRole(c, d) && d.writeBuf == c.writeBuf
      && u - used == AccountedSize(d) - AccountedSize(c)
      && u <= MAX_LIMIT
  {
    if |edited| > |c.readBuf| {
      ReserveIsExact(used, limit, |edited| - |c.readBuf|);
    }
  }

  lemma RewriteRebuffers(s: State, f: Fd, edited: seq<Byte>)
    requires Budgeted(s, 0) && Sound(s) && f in s.conns && |edited| < WORD64 - MAX_LIMIT
    ensures Rebuffered(s, Rewrite(s, f, edited), f)
  {
    hide Sound, Footprint;
    SoundAt(s, f);
    FootprintHolds(s.conns, f);
    RewriteIsExact(s.conns[f], s.used, s.limit, edited);
    hide RewriteIn, ConnectionOk, SameRole;
    WriteBufferOk(s.conns[f], f in s.clientOf);
  }

  lemma RewriteKeepsInv(s: State, f: Fd, edited: seq<Byte>)
    requires Inv(s, 0) && f in s.conns && |edited| < WORD64 - MAX_LIMIT
    ensures Inv(Rewrite(s, f, edited), 0)
  {
    hide Linked, Sound, RetriesRecorded, Counted, Gauged, Budgeted, Rebuffered, Rewrite;
    RewriteRebuffers(s, f, edited);
    RebufferedKeepsInv(s, Rewrite(s, f, edited), f);
  }

  // ---------------------------------------------------------------- forwarding

  /** `forward` moves a prefix of one read buffer to the end of the other side's write buffer. */
  lemma ShiftCarries(a: Connection, b: Connection, n: nat)
    requires Carried(a, b) && Carried(b, a) && n <= |a.readBuf|
    ensures var a', b' := a.(readBuf := a.readBuf[n..]), b.(writeBuf := b.writeBuf + a.readBuf[..n]);
      Carried(a', b') && Carried(b', a')
  {
    assert b.sent + (b.writeBuf + a.readBuf[..n]) + a.readBuf[n..]
        == b.sent + b.writeBuf + (a.readBuf[..n] + a.readBuf[n..]);
    assert a.readBuf[..n] + a.readBuf[n..] == a.readBuf;
  }

  lemma ShiftKeepsBudget(s: State, from: Fd, to: Fd)
    requires Budgeted(s, 0) && from in s.conns && to in s.conns && from != to
    requires s.conns[from].accounted && s.conns[to].accounted
    ensures Budgeted(Shift(s, from, to), 0)
  {
    hide Footprint;
    var t := Shift(s, from, to);
    FootprintUpdate(s.conns, from, t.conns[from]);
    FootprintUpdate(s.conns[from := t.conns[from]], to, t.conns[to]);
    assert t.conns == s.conns[from := t.conns[from]][to := t.conns[to]];
  }

  lemma ShiftKeepsSound(s: State, from: Fd, to: Fd)
    requires Sound(s) && from in s.conns && to in s.conns && from != to
    ensures Sound(Shift(s, from, to))
  {
    var t := Shift(s, from, to);
    assert ConnectionOk(t.conns[from], from in t.clientOf) by { SoundAt(s, from); }
    assert ConnectionOk(t.conns[to], to in t.clientOf) by { SoundAt(s, to); }
    hide ConnectionOk, Portion;
  }

  lemma ShiftKeepsLinks(s: State, from: Fd, to: Fd)
    requires Linked(s) && RetriesRecorded(s) && from in s.conns && to in s.conns && from != to
    ensures Linked(Shift(s, from, to)) && RetriesRecorded(Shift(s, from, to))
  {
    hide Linked, RetriesRecorded, Portion;
    SameLinksKeepLinks(s, Shift(s, from, to));
  }

  lemma ShiftKeepsInv(s: State, from: Fd, to: Fd)
    requires Inv(s, 0) && from in s.conns && to in s.conns && s.conns[from].peer == Some(to)
    ensures from != to && Inv(Shift(s, from, to), 0)
  {
    hide Linked, Sound, RetriesRecorded, Counted, Gauged, Budgeted, Portion;
    PeerFacts(s, from);
    PeersAccounted(s, from, to);
    ShiftKeepsLinks(s, from, to);
    ShiftKeepsSound(s, from, to);
    ShiftKeepsBudget(s, from, to);
    SamePhasesKeepCounts(s, Shift(s, from, to));
    PressureOnly(s, Shift(s, from, to));
  }

  lemma PeersAccounted(s: State, f: Fd, p: Fd)
    requires Sound(s) && f in s.conns && p in s.conns && s.conns[f].peer.Some? && s.conns[p].peer.Some?
    ensures s.conns[f].accounted && s.conns[p].accounted
  {
    SoundAt(s, f);
    SoundAt(s, p);
  }

  lemma PressureOnly(s: State, t: State)
    requires Gauged(s) && t.pressure == s.pressure && t.gauge == s.gauge
    ensures Gauged(t)
  {
  }

  /** The forwarding pair itself still carries its bytes. */
  lemma ShiftKeepsPair(s: State, from: Fd, to: Fd)
    requires from in s.conns && to in s.conns && from != to
    requires s.conns[from].phase.Established? && s.conns[to].phase.Established?
    requires Carried(s.conns[from], s.conns[to]) && Carried(s.conns[to], s.conns[from])
    requires StreamOk(s.conns[from]) && StreamOk(s.conns[to])
    ensures var t := Shift(s, from, to);
      && Carried(t.conns[from], t.conns[to]) && Carried(t.conns[to], t.conns[from])
      && StreamOk(t.conns[from]) && StreamOk(t.conns[to])
  {
    ShiftCarries(s.conns[from], s.conns[to], Portion(s.conns[from], s.conns[to]));
  }

  /** Only the connections of one pair have changed. */
  lemma PairChangeKeepsStreams(s: State, t: State, f: Fd, p: Fd)
    requires Streams(s) && Linked(s) && f in s.conns && p in s.conns && f != p && s.conns[f].peer == Some(p)
    requires t.clientOf == s.clientOf && f in t.conns && p in t.conns
    requires t.conns == s.conns[f := t.conns[f]][p := t.conns[p]]
    requires Carried(t.conns[f], t.conns[p]) && Carried(t.conns[p], t.conns[f])
    requires StreamOk(t.conns[f]) && StreamOk(t.conns[p])
    ensures Streams(t)
  {
    hide Carried, StreamOk, Linked;
    BothPeers(s, f, p);
    forall b | b in t.clientOf
      ensures b in t.conns && t.clientOf[b] in t.conns
      ensures Carried(t.conns[t.clientOf[b]], t.conns[b]) && Carried(t.conns[b], t.conns[t.clientOf[b]])
    {
      OldPair(s, b);
    }
  }

  lemma BothPeers(s: State, f: Fd, p: Fd)
    requires Linked(s) && f in s.conns && s.conns[f].peer == Some(p)
    ensures p in s.conns && s.conns[p].peer == Some(f)
  {
    if f in s.clientOf {
      OldPair(s, f);
    } else {
      LoneOrClient(s, f);
      OldPair(s, p);
    }
  }

  lemma ShiftKeepsStreams(s: State, from: Fd, to: Fd)
    requires Linked(s) && Streams(s) && from in s.conns && to in s.conns && s.conns[from].peer == Some(to)
    requires s.conns[from].phase.Established? && s.conns[to].phase.Established?
    ensures Streams(Shift(s, from, to))
  {
    var t := Shift(s, from, to);
    hide Linked, Streams, Carried, StreamOk, Portion;
    PairCarries(s, from);
    StreamAt(s, from);
    StreamAt(s, to);
    ShiftKeepsPair(s, from, to);
    PairChangeKeepsStreams(s, t, from, to);
  }

  /** A step that touches only clocks and backpressure. */
  lemma SideKeepsInv(s: State, t: State)
    requires Inv(s, 0) && Gauged(t)
    requires t == s.(connTimes := t.connTimes, pressure := t.pressure, gauge := t.gauge)
    ensures Inv(t, 0)
    ensures Streams(s) ==> Streams(t)
  {
    hide Linked, Sound, RetriesRecorded, Counted, Budgeted, Streams, Gauged;
    SameTables(s, t);
    SamePhasesKeepCounts(s, t);
    BudgetOnly(s, t);
  }

  lemma PressureKeepsInv(s: State, f: Fd, now: Time)
    requires Inv(s, 0)
    ensures Inv(StartPressure(s, f, now), 0) && Inv(ClearPressure(s, f), 0)
    ensures Streams(s) ==> Streams(StartPressure(s, f, now)) && Streams(ClearPressure(s, f))
  {
    hide Linked, Sound, RetriesRecorded, Counted, Budgeted, Gauged, Streams, StartPressure, ClearPressure;
    PressureIsGauged(s, f, now);
    SideKeepsInv(s, StartPressure(s, f, now));
    SideKeepsInv(s, ClearPressure(s, f));
  }

  lemma PressureIsGauged(s: State, f: Fd, now: Time)
    requires Gauged(s)
    ensures forall t :: t == StartPressure(s, f, now) || t == ClearPressure(s, f) ==>
      Gauged(t) && t == s.(connTimes := t.connTimes, pressure := t.pressure, gauge := t.gauge)
  {
    MinusSize(s.pressure, f);
    PlusSize(s.pressure, f, now);
  }

  /** What `forward` needs to know of its arguments: they are peers, and the kernel takes no
      more bytes than it is offered. */
  ghost predicate MayForward(s: State, from: Fd, to: Fd, r: WriteResult) {
    && from in s.conns && to in s.conns && from != to
    && s.conns[from].peer == Some(to)
    && (CanForward(s, from, to) ==> WriteFits(Shift(s, from, to).conns[to], r))
  }

  lemma ForwardKeepsInv(s: State, from: Fd, to: Fd, r: WriteResult, kernelBusy: bool, now: Time)
    requires Inv(s, 0) && MayForward(s, from, to, r)
    ensures Inv(Forward(s, from, to, r, kernelBusy, now), 0)
  {
    hide Inv, StartPressure, ClearPressure, Shift, Write, Close, Portion, WriteFits;
    if CanForward(s, from, to) {
      if Portion(s.conns[from], s.conns[to]) == 0 {
        PressureKeepsInv(s, from, now);
      } else {
        var t := Shift(s, from, to);
        ShiftKeepsInv(s, from, to);
        ShiftTables(s, from, to);
        WriteKeepsInv(t, to, r);
        var u := Write(t, to, r);
        CloseKeepsInv(u, to);
        PressureKeepsInv(u, from, now);
      }
    }
  }

  lemma ShiftTables(s: State, from: Fd, to: Fd)
    requires from in s.conns && to in s.conns && from != to
    ensures var t := Shift(s, from, to);
      && from in t.conns && to in t.conns
      && t.conns[from].phase == s.conns[from].phase && t.conns[to].phase == s.conns[to].phase
  {
  }

  lemma ForwardKeepsStreams(s: State, from: Fd, to: Fd, r: WriteResult, kernelBusy: bool, now: Time)
    requires Inv(s, 0) && Streams(s) && MayForward(s, from, to, r)
    ensures Streams(Forward(s, from, to, r, kernelBusy, now))
  {
    hide Linked, Sound, RetriesRecorded, Counted, Gauged, Budgeted, Streams, StartPressure, ClearPressure,
        Shift, Write, Close, Portion, WriteFits;
    if CanForward(s, from, to) {
      if Portion(s.conns[from], s.conns[to]) == 0 {
        PressureKeepsInv(s, from, now);
      } else {
        var t := Shift(s, from, to);
        ShiftKeepsInv(s, from, to);
        ShiftKeepsStreams(s, from, to);
        ShiftTables(s, from, to);
        WriteKeepsInv(t, to, r);
        WriteKeepsStreams(t, to, r);
        var u := Write(t, to, r);
        CloseKeepsStreams(u, to);
        PressureKeepsInv(u, from, now);
      }
    }
  }
}
