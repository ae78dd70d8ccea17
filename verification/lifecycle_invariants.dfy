/** What every operation on the connection tables keeps. */
module LifecycleInvariants {
  import opened Collections
  import opened Backends
  import opened Lifecycle

  /** The largest limit that the configuration can express: a 32-bit count of mebibytes. */
  const MAX_LIMIT: nat := 0x10_0000_0000_0000

  // ---------------------------------------------------------------- the invariants

  /** Maps and peers agree: the two backend maps have one domain, and every backend in it
      and its mapped client are each other's peers. No other connection has a peer. */
  ghost predicate Linked(s: State) {
    && s.nodeOf.Keys == s.clientOf.Keys
    && (forall b :: b in s.clientOf ==>
          && b in s.conns
          && s.clientOf[b] in s.conns
          && s.clientOf[b] !in s.clientOf
          && s.conns[b].peer == Some(s.clientOf[b])
          && s.conns[s.clientOf[b]].peer == Some(b))
    && (forall f :: f in s.conns && f !in s.clientOf && s.conns[f].peer.Some? ==>
          s.conns[f].peer.value in s.clientOf && s.clientOf[s.conns[f].peer.value] == f)
  }

  /** The established descriptors that refer to a node. */
  ghost function Holders(s: State, id: NodeId): set<Fd> {
    set f | f in s.nodeOf && s.nodeOf[f] == id && f in s.conns && s.conns[f].phase.Established?
  }

  ghost predicate Counted(s: State) {
    forall id :: id in s.nodes ==> s.nodes[id].active == |Holders(s, id)|
  }

  ghost predicate Gauged(s: State) {
    s.gauge == |s.pressure|
  }

  /** No closed connection stays in the table, only backends are connecting, only unrouted
      clients are in a handshake, everything in a pair is accounted, accounted write buffers
      are bounded and so are retries. */
  ghost predicate ConnectionOk(c: Connection, isBackend: bool) {
    && (if isBackend then c.phase.Connecting? || c.phase.Established?
        else c.phase.Established? || (c.phase.Handshake? && c.peer.None? && c.retriesMade == 0))
    && (!c.phase.Established? || c.peer.Some? ==> c.accounted)
    && (c.accounted ==> |c.writeBuf| <= MAX_BUFFER)
    && c.retriesMade <= MAX_RETRY_ATTEMPTS
  }

  ghost predicate Sound(s: State) {
    forall f :: f in s.conns ==> ConnectionOk(s.conns[f], f in s.clientOf)
  }

  /** A routed client's retry count is the recorded one. */
  ghost predicate RetriesRecorded(s: State) {
    forall b :: b in s.clientOf ==>
      && s.clientOf[b] in s.conns
      && s.clientOf[b] in s.retries
      && s.retries[s.clientOf[b]] == s.conns[s.clientOf[b]].retriesMade
  }

  ghost function AccountedSize(c: Connection): nat {
    if c.accounted then c.Size() else 0
  }

  /** The bytes in all accounted buffers. */
  ghost function Footprint(conns: map<Fd, Connection>): nat {
    if conns.Keys == {} then 0
    else
      var f := Pick(conns.Keys);
      AccountedSize(conns[f]) + Footprint(conns - {f})
  }

  /** The budget's used bytes are exactly the accounted bytes: those in the tables and `held`,
      those of a client that is between tables. */
  ghost predicate Budgeted(s: State, held: nat) {
    && s.used == Footprint(s.conns) + held
    && s.used <= MAX_LIMIT
    && 0 < s.limit <= MAX_LIMIT
  }

  ghost predicate Inv(s: State, held: nat) {
    && Linked(s) && Sound(s) && RetriesRecorded(s)
    && Counted(s) && Gauged(s) && Budgeted(s, held)
  }

  /** Nothing has been read from or written to the connection. */
  ghost predicate Untouched(c: Connection) {
    c.received == [] && c.sent == [] && c.readBuf == [] && c.writeBuf == []
  }

  /** Everything read from `a` has been written to `b`, in order, or waits in between. */
  ghost predicate Carried(a: Connection, b: Connection) {
    a.received == b.sent + b.writeBuf + a.readBuf
  }

  ghost predicate StreamOk(c: Connection) {
    (!c.phase.Established? ==> Untouched(c)) && |c.readBuf| <= MAX_BUFFER
  }

  /** TCP mode: each pair carries its bytes both ways, read buffers are bounded, and a
      connection that is not established yet has moved nothing. */
  ghost predicate Streams(s: State) {
    && (forall b :: b in s.clientOf ==>
          && b in s.conns && s.clientOf[b] in s.conns
          && Carried(s.conns[s.clientOf[b]], s.conns[b])
          && Carried(s.conns[b], s.conns[s.clientOf[b]]))
    && (forall f :: f in s.conns ==> StreamOk(s.conns[f]))
  }

  // ---------------------------------------------------------------- footprint

  lemma {:induction false} FootprintWithout(conns: map<Fd, Connection>, f: Fd)
    requires f in conns
    ensures Footprint(conns) == AccountedSize(conns[f]) + Footprint(conns - {f})
    decreases |conns|
  {
    var g := Pick(conns.Keys);
    if g != f {
      FootprintWithout(conns - {g}, f);
      FootprintWithout(conns - {f}, g);
      MinusTwo(conns, f, g);
    }
  }

  lemma FootprintUpdate(conns: map<Fd, Connection>, f: Fd, c: Connection)
    ensures Footprint(conns[f := c])
         == Footprint(conns) - (if f in conns then AccountedSize(conns[f]) else 0) + AccountedSize(c)
  {
    FootprintWithout(conns[f := c], f);
    if f in conns {
      FootprintWithout(conns, f);
      assert conns[f := c] - {f} == conns - {f};
    } else {
      assert conns[f := c] - {f} == conns;
    }
  }

  // ---------------------------------------------------------------- using and proving links

  lemma SameKeys(s: State)
    requires Linked(s)
    ensures s.nodeOf.Keys == s.clientOf.Keys
  {
  }

  lemma LoneOrClient(s: State, f: Fd)
    requires Linked(s) && f in s.conns && f !in s.clientOf && s.conns[f].peer.Some?
    ensures s.conns[f].peer.value in s.clientOf && s.clientOf[s.conns[f].peer.value] == f
  {
  }

  lemma LinkedBy(t: State)
    requires t.nodeOf.Keys == t.clientOf.Keys
    requires forall b :: b in t.clientOf ==>
      && b in t.conns && t.clientOf[b] in t.conns && t.clientOf[b] !in t.clientOf
      && t.conns[b].peer == Some(t.clientOf[b]) && t.conns[t.clientOf[b]].peer == Some(b)
    requires forall f :: f in t.conns && f !in t.clientOf && t.conns[f].peer.Some? ==>
      t.conns[f].peer.value in t.clientOf && t.clientOf[t.conns[f].peer.value] == f
    ensures Linked(t)
  {
  }

  lemma OldPair(s: State, b: Fd)
    requires Linked(s) && b in s.clientOf
    ensures b in s.conns && s.clientOf[b] in s.conns && s.clientOf[b] !in s.clientOf
    ensures s.conns[b].peer == Some(s.clientOf[b]) && s.conns[s.clientOf[b]].peer == Some(b)
  {
  }

  lemma SoundAt(s: State, f: Fd)
    requires Sound(s) && f in s.conns
    ensures ConnectionOk(s.conns[f], f in s.clientOf)
  {
  }

  lemma StreamAt(s: State, f: Fd)
    requires Streams(s) && f in s.conns
    ensures StreamOk(s.conns[f])
  {
  }
}
