/** The part of `apply_config` that brings the backend pool in line with a new configuration,
    loop by loop, and the loops as methods on the pool. */
module Reconcile {
  import opened Backends
  import opened Routing

  type Key = (string, nat)

  /** A backend in the configuration. */
  datatype Entry = Entry(host: string, port: nat, weight: nat) {
    function Key(): Key { (host, port) }
  }

  /** The keys of the first `n` entries. */
  function KeysBelow(cfg: seq<Entry>, n: nat): (keys: set<Key>)
    requires n <= |cfg|
    ensures forall i :: 0 <= i < n ==> cfg[i].Key() in keys
    ensures forall k :: k in keys ==> exists i :: 0 <= i < n && cfg[i].Key() == k
  {
    if n == 0 then {} else KeysBelow(cfg, n - 1) + {cfg[n - 1].Key()}
  }

  function Keys(cfg: seq<Entry>): set<Key> { KeysBelow(cfg, |cfg|) }

  // ---------------------------------------------------------------- the three loops

  function Mark(b: Backend, keys: set<Key>): Backend {
    if b.Key() in keys then b else b.(health := Draining)
  }

  function MarkAll(bs: seq<Backend>, keys: set<Key>): (r: seq<Backend>)
    ensures |r| == |bs|
  {
    seq(|bs|, i requires 0 <= i < |bs| => Mark(bs[i], keys))
  }

  /** A `BackendNode` as its constructor leaves it; a weight of zero counts as one. */
  function NewNode(e: Entry, id: NodeId): Backend {
    Backend(id, e.host, e.port, if e.weight > 0 then e.weight else 1, Healthy, 0)
  }

  /** One configured backend: added if it is new, taken back if it was draining. */
  function Admit(bs: seq<Backend>, e: Entry, id: NodeId): seq<Backend> {
    var k := Find(bs, e.host, e.port);
    if k == |bs| then bs + [NewNode(e, id)]
    else if bs[k].health.Draining? then bs[k := bs[k].(health := Healthy)]
    else bs
  }

  function AdmitBelow(bs: seq<Backend>, cfg: seq<Entry>, ids: seq<NodeId>, n: nat): seq<Backend>
    requires n <= |cfg| == |ids|
    decreases n
  {
    if n == 0 then bs else Admit(AdmitBelow(bs, cfg, ids, n - 1), cfg[n - 1], ids[n - 1])
  }

  predicate Drained(b: Backend) {
    b.health.Draining? && b.active == 0
  }

  /** `cleanup_drained_backends`, after the first `n` nodes of its snapshot. */
  function CleanBelow(bs: seq<Backend>, snapshot: seq<Backend>, n: nat): seq<Backend>
    requires n <= |snapshot|
    decreases n
  {
    if n == 0 then bs
    else
      var rest, b := CleanBelow(bs, snapshot, n - 1), snapshot[n - 1];
      if Drained(b) then Without(rest, b.host, b.port) else rest
  }

  function Cleaned(bs: seq<Backend>): seq<Backend> { CleanBelow(bs, bs, |bs|) }

  /** The pool after a reconcile; `ids` are the identities of the nodes that may be created. */
  function Reconciled(bs: seq<Backend>, cfg: seq<Entry>, ids: seq<NodeId>): seq<Backend>
    requires |cfg| == |ids|
  {
    Cleaned(AdmitBelow(MarkAll(bs, Keys(cfg)), cfg, ids, |cfg|))
  }

  // ---------------------------------------------------------------- the methods

  method ConfiguredKeys(cfg: seq<Entry>) returns (keys: set<Key>)
    ensures keys == Keys(cfg)
  {
    keys := {};
    for i := 0 to |cfg|
      invariant keys == KeysBelow(cfg, i)
    {
      keys := keys + {cfg[i].Key()};
    }
  }

  method MarkDraining(pool: Pool, keys: set<Key>)
    modifies pool`backends
    ensures pool.backends == MarkAll(old(pool.backends), keys)
  {
    var n := |pool.backends|;
    for i := 0 to n
      invariant |pool.backends| == n
      invariant forall k :: 0 <= k < i ==> pool.backends[k] == Mark(old(pool.backends)[k], keys)
      invariant forall k :: i <= k < n ==> pool.backends[k] == old(pool.backends)[k]
    {
      var b := pool.backends[i];
      if b.Key() !in keys && !b.health.Draining? {
        pool.backends := pool.backends[i := b.(health := Draining)];
      }
    }
  }

  method AdmitConfigured(pool: Pool, cfg: seq<Entry>, ids: seq<NodeId>)
    requires |cfg| == |ids|
    modifies pool`backends
    ensures pool.backends == AdmitBelow(old(pool.backends), cfg, ids, |cfg|)
  {
    for i := 0 to |cfg|
      invariant pool.backends == AdmitBelow(old(pool.backends), cfg, ids, i)
    {
      var k := pool.FindBackend(cfg[i].host, cfg[i].port);
      if k == |pool.backends| {
        pool.AddBackend(NewNode(cfg[i], ids[i]));
      } else if pool.backends[k].health.Draining? {
        pool.backends := pool.backends[k := pool.backends[k].(health := Healthy)];
      }
    }
  }

  method CleanupDrained(pool: Pool)
    modifies pool`backends
    ensures pool.backends == Cleaned(old(pool.backends))
  {
    var all := pool.backends;
    for i := 0 to |all|
      invariant pool.backends == CleanBelow(all, all, i)
    {
      if all[i].health.Draining? && all[i].active == 0 {
        pool.RemoveBackend(all[i].host, all[i].port);
      }
    }
  }

  method ReconcileBackends(pool: Pool, cfg: seq<Entry>, ids: seq<NodeId>)
    requires |cfg| == |ids|
    modifies pool`backends
    ensures pool.backends == Reconciled(old(pool.backends), cfg, ids)
  {
    var keys := ConfiguredKeys(cfg);
    MarkDraining(pool, keys);
    AdmitConfigured(pool, cfg, ids);
    CleanupDrained(pool);
  }
}
