/** `ConnectionPool`: idle and lent connections to one backend. Socket calls are answers given to
    the operations: which connections are still usable, and what connecting yields. */
module ConnectionPool {
  import opened Collections
  import opened Words

  /** The identity of a connection object. */
  type Conn(==)

  /** Clock readings, in nanoseconds. */
  type Time = int

  const MILLISECOND: nat := 1_000_000

  datatype Config = Config(min: nat, max: nat, maxIdleMs: nat, validateOnBorrow: bool)

  datatype Idle = Idle(conn: Conn, lastUsed: Time)

  /** A pool: what is idle, how many the pool believes lent, and which connections really are. */
  datatype Pool = Pool(idle: seq<Idle>, active: nat, lent: set<Conn>)

  const EMPTY := Pool([], 0, {})

  /** The connections to be checked before they are handed out pass the check. */
  predicate Usable(e: Idle, config: Config, valid: set<Conn>) {
    config.validateOnBorrow ==> e.conn in valid
  }

  function FirstUsable(idle: seq<Idle>, config: Config, valid: set<Conn>): (k: nat)
    ensures k <= |idle|
    ensures k < |idle| ==> Usable(idle[k], config, valid)
    ensures forall j :: 0 <= j < k ==> !Usable(idle[j], config, valid)
  {
    if idle == [] || Usable(idle[0], config, valid) then 0 else 1 + FirstUsable(idle[1..], config, valid)
  }

  function Less1(n: nat): nat { if n > 0 then n - 1 else 0 }

  /** `borrow`: unusable connections go; the first usable one, or a new one below the maximum, is lent. */
  function Borrow(p: Pool, config: Config, valid: set<Conn>, created: Option<Conn>): (Option<Conn>, Pool) {
    var k := FirstUsable(p.idle, config, valid);
    if k < |p.idle| then
      (Some(p.idle[k].conn), Pool(p.idle[k + 1..], p.active + 1, p.lent + {p.idle[k].conn}))
    else if p.active < config.max && created.Some? then
      (created, Pool([], p.active + 1, p.lent + {created.value}))
    else (None, p.(idle := []))
  }

  /** `release` */
  function Release(p: Pool, conn: Option<Conn>, usable: bool, now: Time): Pool {
    if conn.None? then p
    else
      Pool(if usable then p.idle + [Idle(conn.value, now)] else p.idle, Less1(p.active), p.lent - {conn.value})
  }

  /** `invalidate`: the connection is not coming back. */
  function Invalidate(p: Pool, conn: Conn): Pool {
    p.(active := Less1(p.active), lent := p.lent - {conn})
  }

  /** Milliseconds idle, as `duration_cast` truncates and `size_t` wraps. */
  function IdleMs(e: Idle, now: Time): nat {
    var elapsed := now - e.lastUsed;
    if elapsed >= 0 then elapsed / MILLISECOND
    else (WORD64 - (-elapsed / MILLISECOND) % WORD64) % WORD64
  }

  predicate Expired(e: Idle, config: Config, now: Time) {
    IdleMs(e, now) > config.maxIdleMs
  }

  /** The loop of `evict_expired` over what it has not seen yet, with its count of idle connections. */
  function EvictFrom(idle: seq<Idle>, count: int, config: Config, now: Time): seq<Idle>
    decreases |idle|
  {
    if idle == [] then []
    else if count > config.min && Expired(idle[0], config, now) then EvictFrom(idle[1..], count - 1, config, now)
    else [idle[0]] + EvictFrom(idle[1..], count, config, now)
  }

  function Evict(p: Pool, config: Config, now: Time): Pool {
    p.(idle := EvictFrom(p.idle, |p.idle|, config, now))
  }

  // ---------------------------------------------------------------- the class

  class ConnectionPool {
    const config: Config
    var idle: seq<Idle>
    var active: nat
    ghost var lent: set<Conn>

    ghost function View(): Pool
      reads this
    {
      Pool(idle, active, lent)
    }

    constructor (config: Config)
      ensures this.config == config && View() == EMPTY
    {
      this.config := config;
      idle, active, lent := [], 0, {};
    }

    method BorrowConnection(valid: set<Conn>, created: Option<Conn>) returns (conn: Option<Conn>)
      modifies this
      ensures (conn, View()) == Borrow(old(View()), config, valid, created)
    {
      while idle != []
        invariant active == old(active) && lent == old(lent)
        invariant |idle| <= |old(idle)| && idle == old(idle)[|old(idle)| - |idle|..]
        invariant FirstUsable(old(idle), config, valid)
          == |old(idle)| - |idle| + FirstUsable(idle, config, valid)
        decreases |idle|
      {
        var first := idle[0];
        idle := idle[1..];
        if !config.validateOnBorrow || first.conn in valid {
          active := active + 1;
          lent := lent + {first.conn};
          return Some(first.conn);
        }
      }
      if active < config.max && created.Some? {
        active := active + 1;
        lent := lent + {created.value};
        return created;
      }
      return None;
    }

    method ReleaseConnection(conn: Option<Conn>, usable: bool, now: Time)
      modifies this
      ensures View() == Release(old(View()), conn, usable, now)
    {
      if conn.None? {
        return;
      }
      if active > 0 {
        active := active - 1;
      }
      lent := lent - {conn.value};
      if !usable {
        return;
      }
      idle := idle + [Idle(conn.value, now)];
    }

    method InvalidateConnection(ghost conn: Conn)
      modifies this
      ensures View() == Invalidate(old(View()), conn)
    {
      if active > 0 {
        active := active - 1;
      }
      lent := lent - {conn};
    }

    method EvictExpired(now: Time)
      modifies this`idle
      ensures View() == Evict(old(View()), config, now)
    {
      var count := |idle|;
      var i := 0;
      while i < |idle|
        invariant 0 <= i <= |idle| && count >= 0
        invariant idle[..i] + EvictFrom(idle[i..], count, config, now)
          == EvictFrom(old(idle), |old(idle)|, config, now)
        decreases |idle| - i
      {
        ghost var was := idle;
        assert was[i..][0] == was[i] && was[i..][1..] == was[i + 1..];
        if count > config.min && IdleMs(idle[i], now) > config.maxIdleMs {
          idle := idle[..i] + idle[i + 1..];
          count := count - 1;
          assert idle[..i] == was[..i] && idle[i..] == was[i + 1..];
        } else {
          i := i + 1;
          assert idle[..i] == was[..i - 1] + [was[i - 1]];
        }
      }
      assert idle[..i] == idle;
    }
  }
}
