/** What every use of a connection pool keeps, and what eviction drops. */
module ConnectionPoolLaws {
  import opened Collections
  import opened ConnectionPool

  ghost predicate Distinct(idle: seq<Idle>) {
    forall i, j :: 0 <= i < j < |idle| ==> idle[i].conn != idle[j].conn
  }

  ghost predicate Apart(idle: seq<Idle>, lent: set<Conn>) {
    forall i :: 0 <= i < |idle| ==> idle[i].conn !in lent
  }

  /** Oldest first, and nothing from the future. */
  ghost predicate Ordered(idle: seq<Idle>, now: Time) {
    && (forall i, j :: 0 <= i < j < |idle| ==> idle[i].lastUsed <= idle[j].lastUsed)
    && (forall i :: 0 <= i < |idle| ==> idle[i].lastUsed <= now)
  }

  ghost predicate Inv(p: Pool, config: Config, now: Time) {
    && Distinct(p.idle) && Apart(p.idle, p.lent) && Ordered(p.idle, now)
    && p.active == |p.lent|
    && p.active + |p.idle| <= config.max
  }

  // ---------------------------------------------------------------- one operation

  lemma BorrowKeepsInv(p: Pool, config: Config, valid: set<Conn>, created: Option<Conn>, now: Time)
    requires Inv(p, config, now)
    requires created.Some? ==> created.value !in p.lent
    ensures var (conn, q) := Borrow(p, config, valid, created);
      && Inv(q, config, now)
      && (conn.Some? ==> conn.value !in p.lent && q.lent == p.lent + {conn.value})
      && (conn.None? ==> q.lent == p.lent)
      && (conn.None? <==>
            && (forall e :: e in p.idle ==> !Usable(e, config, valid))
            && (p.active == config.max || created.None?))
  {
    var k := FirstUsable(p.idle, config, valid);
    if k < |p.idle| {
      var rest, conn := p.idle[k + 1..], p.idle[k].conn;
      assert p.idle[k] in p.idle;
      assert forall i :: 0 <= i < |rest| ==> rest[i] == p.idle[k + 1 + i];
    }
  }

  lemma ReleaseKeepsInv(p: Pool, config: Config, conn: Conn, usable: bool, before: Time, now: Time)
    requires Inv(p, config, before) && before <= now && conn in p.lent
    ensures var q := Release(p, Some(conn), usable, now);
      && Inv(q, config, now)
      && q.active == p.active - 1
      && q.lent == p.lent - {conn}
      && q.idle == (if usable then p.idle + [Idle(conn, now)] else p.idle)
  {
  }

  lemma InvalidateKeepsInv(p: Pool, config: Config, conn: Conn, now: Time)
    requires Inv(p, config, now) && conn in p.lent
    ensures var q := Invalidate(p, conn); Inv(q, config, now) && q.active == p.active - 1 && q.idle == p.idle
  {
  }

  /** A borrow prefers idle connections: it lends the first that need not be checked or passes the
      check, drops those before it and keeps those behind it. Only when there is none does it lend a
      new one, if fewer than the maximum are lent. */
  lemma BorrowEffect(p: Pool, config: Config, valid: set<Conn>, created: Option<Conn>)
    ensures var (conn, q) := Borrow(p, config, valid, created);
      if exists k :: 0 <= k < |p.idle| && (config.validateOnBorrow ==> p.idle[k].conn in valid) then
        exists k :: 0 <= k < |p.idle|
          && (config.validateOnBorrow ==> p.idle[k].conn in valid)
          && (forall j :: 0 <= j < k ==> config.validateOnBorrow && p.idle[j].conn !in valid)
          && conn == Some(p.idle[k].conn) && q == Pool(p.idle[k + 1..], p.active + 1, p.lent + {p.idle[k].conn})
      else if p.active < config.max && created.Some? then
        conn == created && q == Pool([], p.active + 1, p.lent + {created.value})
      else conn == None && q == p.(idle := [])
  {
    var k := FirstUsable(p.idle, config, valid);
    if k == |p.idle| {
      assert forall j :: 0 <= j < |p.idle| ==> !Usable(p.idle[j], config, valid);
    }
  }

  // ---------------------------------------------------------------- eviction

  /** A connection has expired when it has been idle for more whole milliseconds than allowed. */
  lemma ExpiredMeans(e: Idle, config: Config, now: Time)
    requires e.lastUsed <= now
    ensures Expired(e, config, now) <==> now - e.lastUsed >= (config.maxIdleMs + 1) * 1_000_000
  {
  }

  ghost function ExpiredCount(idle: seq<Idle>, config: Config, now: Time): nat {
    if idle == [] then 0 else (if Expired(idle[0], config, now) then 1 else 0) + ExpiredCount(idle[1..], config, now)
  }

  ghost function Min(a: int, b: int): int { if a < b then a else b }

  /** How many are dropped: the expired ones, as far as the minimum allows. */
  ghost function Dropped(idle: seq<Idle>, count: int, config: Config, now: Time): nat {
    if count <= config.min then 0 else Min(ExpiredCount(idle, config, now), count - config.min)
  }

  lemma OlderExpires(a: Idle, b: Idle, config: Config, now: Time)
    requires a.lastUsed <= b.lastUsed <= now && Expired(b, config, now)
    ensures Expired(a, config, now)
  {
  }

  lemma {:induction false} NoneExpired(idle: seq<Idle>, config: Config, now: Time)
    requires forall i :: 0 <= i < |idle| ==> !Expired(idle[i], config, now)
    ensures ExpiredCount(idle, config, now) == 0
  {
    if idle != [] {
      NoneExpired(idle[1..], config, now);
    }
  }

  lemma {:induction false} ExpiredCountIsBounded(idle: seq<Idle>, config: Config, now: Time)
    ensures ExpiredCount(idle, config, now) <= |idle|
  {
    if idle != [] {
      ExpiredCountIsBounded(idle[1..], config, now);
    }
  }

  lemma OrderedRest(idle: seq<Idle>, now: Time)
    requires Ordered(idle, now) && idle != []
    ensures Ordered(idle[1..], now)
  {
  }

  /** If the oldest has not expired, none has. */
  lemma OldestDecides(idle: seq<Idle>, config: Config, now: Time)
    requires Ordered(idle, now) && idle != [] && !Expired(idle[0], config, now)
    ensures forall i :: 0 <= i < |idle| ==> !Expired(idle[i], config, now)
    ensures ExpiredCount(idle, config, now) == 0
  {
    hide Expired, ExpiredCount;
    forall i | 0 <= i < |idle|
      ensures !Expired(idle[i], config, now)
    {
      if Expired(idle[i], config, now) { OlderExpires(idle[0], idle[i], config, now); }
    }
    NoneExpired(idle, config, now);
  }

  /** How many are dropped, from the oldest on. */
  lemma DroppedStep(idle: seq<Idle>, count: int, config: Config, now: Time)
    requires Ordered(idle, now) && idle != []
    ensures Dropped(idle, count, config, now) ==
      if count > config.min && Expired(idle[0], config, now) then 1 + Dropped(idle[1..], count - 1, config, now) else 0
  {
    hide Expired;
    if !Expired(idle[0], config, now) {
      OldestDecides(idle, config, now);
    }
  }

  lemma {:induction false} EvictFromIs(idle: seq<Idle>, count: int, config: Config, now: Time)
    requires Ordered(idle, now)
    ensures Dropped(idle, count, config, now) <= |idle|
    ensures EvictFrom(idle, count, config, now) == idle[Dropped(idle, count, config, now)..]
    decreases |idle|
  {
    if idle == [] {
      assert Dropped(idle, count, config, now) == 0;
    } else {
      hide Expired, Ordered, Dropped;
      var first, rest := idle[0], idle[1..];
      OrderedRest(idle, now);
      DroppedStep(idle, count, config, now);
      if count > config.min && Expired(first, config, now) {
        EvictFromIs(rest, count - 1, config, now);
        var k := Dropped(rest, count - 1, config, now);
        assert rest[k..] == idle[k + 1..];
      } else {
        EvictFromIs(rest, count, config, now);
        assert Dropped(rest, count, config, now) == 0 by { NothingMore(idle, count, config, now); }
        assert [first] + rest[0..] == idle[0..];
      }
    }
  }

  lemma NothingMore(idle: seq<Idle>, count: int, config: Config, now: Time)
    requires Ordered(idle, now) && idle != [] && !(count > config.min && Expired(idle[0], config, now))
    ensures Dropped(idle[1..], count, config, now) == 0
  {
    hide Expired;
    if !Expired(idle[0], config, now) {
      OldestDecides(idle, config, now);
    }
  }

  /** `evict_expired` drops exactly the oldest min(expired, idle - min) connections when more than
      the minimum are idle, and otherwise none. */
  lemma EvictDropsTheOldest(p: Pool, config: Config, now: Time)
    requires Inv(p, config, now)
    ensures var k := if |p.idle| <= config.min then 0
                     else Min(ExpiredCount(p.idle, config, now), |p.idle| - config.min);
      && 0 <= k <= |p.idle|
      && Evict(p, config, now) == p.(idle := p.idle[k..])
      && (forall i :: 0 <= i < k ==> Expired(p.idle[i], config, now))
      && Inv(Evict(p, config, now), config, now)
  {
    hide Expired;
    EvictFromIs(p.idle, |p.idle|, config, now);
    var k := Dropped(p.idle, |p.idle|, config, now);
    forall i | 0 <= i < k
      ensures Expired(p.idle[i], config, now)
    {
      ExpiredComeFirst(p.idle, config, now, i);
    }
    var rest := p.idle[k..];
    assert forall i :: 0 <= i < |rest| ==> rest[i] == p.idle[k + i];
  }

  /** The expired connections are the first ones. */
  lemma {:induction false} ExpiredComeFirst(idle: seq<Idle>, config: Config, now: Time, i: nat)
    requires Ordered(idle, now) && i < |idle|
    ensures Expired(idle[i], config, now) <==> i < ExpiredCount(idle, config, now)
    decreases |idle|
  {
    hide Expired;
    if Expired(idle[0], config, now) {
      if i > 0 {
        ExpiredComeFirst(idle[1..], config, now, i - 1);
      }
    } else {
      OldestDecides(idle, config, now);
    }
  }

  // ---------------------------------------------------------------- every run

  datatype Event =
    | Borrowing(valid: set<Conn>, created: Option<Conn>, now: Time)
    | Releasing(conn: Conn, usable: bool, now: Time)
    | Invalidating(conn: Conn, now: Time)
    | Evicting(now: Time)

  /** A disciplined use: only what was borrowed comes back, and new connections are new. */
  ghost predicate Disciplined(p: Pool, e: Event, before: Time) {
    && before <= e.now
    && match e
       case Borrowing(_, created, _) => created.Some? ==> created.value !in p.lent
       case Releasing(conn, _, _) => conn in p.lent
       case Invalidating(conn, _) => conn in p.lent
       case Evicting(_) => true
  }

  ghost function Apply(p: Pool, config: Config, e: Event): Pool {
    match e
    case Borrowing(valid, created, _) => Borrow(p, config, valid, created).1
    case Releasing(conn, usable, now) => Release(p, Some(conn), usable, now)
    case Invalidating(conn, _) => Invalidate(p, conn)
    case Evicting(now) => Evict(p, config, now)
  }

  ghost function Run(p: Pool, config: Config, es: seq<Event>): Pool
    decreases |es|
  {
    if es == [] then p else Run(Apply(p, config, es[0]), config, es[1..])
  }

  ghost predicate AllDisciplined(p: Pool, config: Config, es: seq<Event>, before: Time)
    decreases |es|
  {
    es != [] ==> Disciplined(p, es[0], before) && AllDisciplined(Apply(p, config, es[0]), config, es[1..], es[0].now)
  }

  ghost function Last(es: seq<Event>, before: Time): Time {
    if es == [] then before else es[|es| - 1].now
  }

  lemma InvLater(p: Pool, config: Config, before: Time, now: Time)
    requires Inv(p, config, before) && before <= now
    ensures Inv(p, config, now)
  {
  }

  lemma ApplyKeepsInv(p: Pool, config: Config, e: Event, before: Time)
    requires Inv(p, config, before) && Disciplined(p, e, before)
    ensures Inv(Apply(p, config, e), config, e.now)
  {
    hide Inv, Borrow, Release, Invalidate, Evict;
    InvLater(p, config, before, e.now);
    match e
    case Borrowing(valid, created, now) => BorrowKeepsInv(p, config, valid, created, now);
    case Releasing(conn, usable, now) => ReleaseKeepsInv(p, config, conn, usable, before, now);
    case Invalidating(conn, now) => InvalidateKeepsInv(p, config, conn, now);
    case Evicting(now) => EvictDropsTheOldest(p, config, now);
  }

  lemma {:induction false} RunKeepsInv(p: Pool, config: Config, es: seq<Event>, before: Time)
    requires Inv(p, config, before) && AllDisciplined(p, config, es, before)
    ensures Inv(Run(p, config, es), config, Last(es, before))
    decreases |es|
  {
    hide Inv, Apply, Disciplined;
    if es != [] {
      ApplyKeepsInv(p, config, es[0], before);
      RunKeepsInv(Apply(p, config, es[0]), config, es[1..], es[0].now);
    }
  }

  /** In every disciplined run from an empty pool: idle and lent connections are disjoint, the
      count is the number lent, the maximum holds, and idle is ordered by last use. */
  lemma PoolStaysSound(config: Config, es: seq<Event>, start: Time)
    requires AllDisciplined(EMPTY, config, es, start)
    ensures var p := Run(EMPTY, config, es);
      && Distinct(p.idle) && Apart(p.idle, p.lent)
      && p.active == |p.lent|
      && p.active + |p.idle| <= config.max
      && Ordered(p.idle, Last(es, start))
  {
    hide Run, AllDisciplined;
    RunKeepsInv(EMPTY, config, es, start);
  }
}
