/** `BackendPool`: the choice of a backend, as a function of the pool and as the class that
    computes it. Nodes are named by their position in the pool. */
module Routing {
  import opened Collections
  import opened Backends
  import opened Words
  import opened Remainders

  datatype Algorithm = RoundRobin | LeastConnections

  function Plus32(a: nat, b: nat): nat {
    (a + b) % WORD32
  }

  // ---------------------------------------------------------------- weighted round robin

  function Weight(bs: seq<Backend>): nat {
    if bs == [] then 0 else Weight(bs[..|bs| - 1]) + bs[|bs| - 1].weight
  }

  /** The 32-bit running sum of weights after the first `i` backends. */
  function Cumulative(bs: seq<Backend>, i: nat): nat
    requires i <= |bs|
  {
    Weight(bs[..i]) % WORD32
  }

  lemma Accumulate(bs: seq<Backend>, i: nat)
    requires i < |bs|
    ensures Cumulative(bs, i + 1) == Plus32(Cumulative(bs, i), bs[i].weight)
  {
    assert bs[..i + 1][..i] == bs[..i];
  }

  /** The first backend from `i` on whose running sum exceeds the target, else the first one. */
  function Covering(bs: seq<Backend>, target: nat, i: nat): (k: nat)
    requires bs != [] && i <= |bs|
    ensures k < |bs|
    decreases |bs| - i
  {
    if i == |bs| then 0 else if target < Cumulative(bs, i + 1) then i else Covering(bs, target, i + 1)
  }

  function NextInTurn(bs: seq<Backend>, counter: nat): (k: nat)
    requires bs != []
    ensures k < |bs|
  {
    var total := Cumulative(bs, |bs|);
    if total == 0 then 0 else Covering(bs, Mod(counter, total), 0)
  }

  function Counted(bs: seq<Backend>, counter: nat): nat {
    if Cumulative(bs, |bs|) == 0 then counter else Plus32(counter, 1)
  }

  lemma {:induction false} CoveringCovers(bs: seq<Backend>, target: nat, i: nat)
    requires bs != [] && i <= |bs| && target < Cumulative(bs, |bs|)
    requires forall j :: 0 <= j <= i ==> Cumulative(bs, j) <= target
    ensures var k := Covering(bs, target, i);
      target < Cumulative(bs, k + 1) && forall j :: 0 <= j <= k ==> Cumulative(bs, j) <= target
    decreases |bs| - i
  {
    hide Cumulative;
    assert Cumulative(bs, i) <= target;
    if Cumulative(bs, i + 1) <= target {
      CoveringCovers(bs, target, i + 1);
    }
  }

  /** The last return is never reached: whatever the 32-bit sums do, some backend covers the
      target, and the first that does is chosen. */
  lemma SomeBackendIsInTurn(bs: seq<Backend>, counter: nat)
    requires bs != [] && Cumulative(bs, |bs|) > 0
    ensures var k, target := NextInTurn(bs, counter), Mod(counter, Cumulative(bs, |bs|));
      target < Cumulative(bs, k + 1) && forall j :: 0 <= j <= k ==> Cumulative(bs, j) <= target
  {
    assert Cumulative(bs, 0) == 0;
    hide Cumulative;
    CoveringCovers(bs, Mod(counter, Cumulative(bs, |bs|)), 0);
  }

  // ---------------------------------------------------------------- least connections

  /** `load_a < load_b` for active / weight read as exact numbers. A weight of zero gives
      infinity, or no number at all when nothing is active. */
  predicate Less(a: Backend, b: Backend) {
    a.weight > 0 && if b.weight > 0 then a.active * b.weight < b.active * a.weight else b.active > 0
  }

  /** `std::min_element` */
  function Lightest(bs: seq<Backend>): (k: nat)
    requires bs != []
    ensures k < |bs|
  {
    if |bs| == 1 then 0
    else
      var n := |bs| - 1;
      var best := Lightest(bs[..n]);
      if Less(bs[n], bs[best]) then n else best
  }

  // ---------------------------------------------------------------- the choice

  function Find(bs: seq<Backend>, host: string, port: nat): (k: nat)
    ensures k <= |bs|
    ensures k < |bs| ==> bs[k].Key() == (host, port)
    ensures forall j :: 0 <= j < k ==> bs[j].Key() != (host, port)
  {
    FindFrom(bs, host, port, 0)
  }

  function FindFrom(bs: seq<Backend>, host: string, port: nat, i: nat): (k: nat)
    requires i <= |bs|
    ensures i <= k <= |bs|
    ensures k < |bs| ==> bs[k].Key() == (host, port)
    ensures forall j :: i <= j < k ==> bs[j].Key() != (host, port)
    decreases |bs| - i
  {
    if i == |bs| || bs[i].Key() == (host, port) then i else FindFrom(bs, host, port, i + 1)
  }

  /** The positions below `n` of the eligible backends, in pool order. */
  function EligibleBelow(bs: seq<Backend>, cap: nat, n: nat): (ks: seq<nat>)
    requires n <= |bs|
    ensures forall k :: k in ks <==> 0 <= k < n && bs[k].Eligible(cap)
  {
    if n == 0 then []
    else EligibleBelow(bs, cap, n - 1) + if bs[n - 1].Eligible(cap) then [n - 1] else []
  }

  function At(bs: seq<Backend>, ks: seq<nat>): (r: seq<Backend>)
    requires forall k :: k in ks ==> k < |bs|
    ensures |r| == |ks|
  {
    seq(|ks|, i requires 0 <= i < |ks| => assert ks[i] in ks; bs[ks[i]])
  }

  predicate Sticks(bs: seq<Backend>, cap: nat, host: string, port: nat) {
    host != "" && port > 0 && var k := Find(bs, host, port); k < |bs| && bs[k].Eligible(cap)
  }

  /** The eligible backends in pool order. */
  function Candidates(bs: seq<Backend>, cap: nat): seq<Backend> {
    At(bs, EligibleBelow(bs, cap, |bs|))
  }

  /** `select_backend` */
  function Choose(bs: seq<Backend>, algorithm: Algorithm, counter: nat, cap: nat, host: string,
      port: nat): Option<nat> {
    if Sticks(bs, cap, host, port) then Some(Find(bs, host, port))
    else
      var ks := EligibleBelow(bs, cap, |bs|);
      if ks == [] then None
      else
        match algorithm
        case RoundRobin => Some(ks[NextInTurn(At(bs, ks), counter)])
        case LeastConnections => Some(ks[Lightest(At(bs, ks))])
  }

  /** A backend is found exactly when one is eligible, and it is an eligible one. */
  lemma ChoosesEligible(bs: seq<Backend>, algorithm: Algorithm, counter: nat, cap: nat, host: string, port: nat)
    ensures var r := Choose(bs, algorithm, counter, cap, host, port);
      && (r.Some? <==> exists k :: 0 <= k < |bs| && bs[k].Eligible(cap))
      && (r.Some? ==> r.value < |bs| && bs[r.value].Eligible(cap))
  {
    hide NextInTurn, Lightest;
    var ks := EligibleBelow(bs, cap, |bs|);
    if ks != [] {
      assert ks[0] in ks;
      var j := if algorithm.RoundRobin? then NextInTurn(At(bs, ks), counter) else Lightest(At(bs, ks));
      assert ks[j] in ks;
    }
  }

  // ---------------------------------------------------------------- the class

  class Pool {
    var backends: seq<Backend>
    var algorithm: Algorithm
    var counter: nat

    constructor (algorithm: Algorithm)
      ensures backends == [] && this.algorithm == algorithm && counter == 0
    {
      this.backends, this.algorithm, this.counter := [], algorithm, 0;
    }

    method AddBackend(b: Backend)
      modifies this`backends
      ensures backends == old(backends) + [b]
    {
      backends := backends + [b];
    }

    method RemoveBackend(host: string, port: nat)
      modifies this`backends
      ensures backends == Without(old(backends), host, port)
    {
      var kept := [];
      for i := 0 to |backends|
        invariant kept == Without(backends[..i], host, port)
      {
        assert backends[..i + 1][..i] == backends[..i];
        if !(backends[i].host == host && backends[i].port == port) {
          kept := kept + [backends[i]];
        }
      }
      assert backends[..|backends|] == backends;
      backends := kept;
    }

    method FindBackend(host: string, port: nat) returns (k: nat)
      ensures k == Find(backends, host, port)
    {
      k := 0;
      while k < |backends|
        invariant k <= |backends| && FindFrom(backends, host, port, k) == Find(backends, host, port)
      {
        if backends[k].host == host && backends[k].port == port {
          return;
        }
        k := k + 1;
      }
    }

    method SelectWeightedRoundRobin(healthy: seq<Backend>) returns (k: nat)
      requires healthy != []
      modifies this`counter
      ensures k == NextInTurn(healthy, old(counter)) && counter == Counted(healthy, old(counter))
    {
      hide Cumulative, Covering, Plus32, Mod;
      var total := TotalWeight(healthy);
      if total == 0 {
        return 0;
      }
      k := FindCovering(healthy, Mod(counter, total));
      counter := Plus32(counter, 1);
    }

    method SelectLeastLoaded(healthy: seq<Backend>) returns (best: nat)
      requires healthy != []
      ensures best == Lightest(healthy)
    {
      best := 0;
      assert Lightest(healthy[..1]) == 0;
      for i := 1 to |healthy|
        invariant best == Lightest(healthy[..i])
      {
        assert healthy[..i + 1][..i] == healthy[..i];
        if Less(healthy[i], healthy[best]) {
          best := i;
        }
      }
      assert healthy[..|healthy|] == healthy;
    }

    method CollectEligible(cap: nat) returns (ks: seq<nat>)
      ensures ks == EligibleBelow(backends, cap, |backends|)
    {
      ks := [];
      for i := 0 to |backends|
        invariant ks == EligibleBelow(backends, cap, i)
      {
        if backends[i].health.Healthy? && (cap == 0 || backends[i].active < cap) {
          ks := ks + [i];
        }
      }
    }

    method SelectBackend(cap: nat, host: string, port: nat) returns (chosen: Option<nat>)
      modifies this`counter
      ensures chosen == Choose(backends, algorithm, old(counter), cap, host, port)
      ensures algorithm.RoundRobin? && chosen.Some? && !Sticks(backends, cap, host, port)
        ==> counter == Counted(Candidates(backends, cap), old(counter))
      ensures algorithm.LeastConnections? || chosen.None? || Sticks(backends, cap, host, port) ==>
        counter == old(counter)
    {
      hide NextInTurn, Lightest, Counted;
      if backends == [] {
        return None;
      }
      if host != "" && port > 0 {
        var k := FindBackend(host, port);
        if k < |backends| && backends[k].health.Healthy? && (cap == 0 || backends[k].active < cap) {
          return Some(k);
        }
      }
      var ks := CollectEligible(cap);
      if ks == [] {
        return None;
      }
      var j;
      match algorithm {
        case RoundRobin => j := SelectWeightedRoundRobin(At(backends, ks));
        case LeastConnections => j := SelectLeastLoaded(At(backends, ks));
      }
      return Some(ks[j]);
    }
  }

  method TotalWeight(healthy: seq<Backend>) returns (total: nat)
    ensures total == Cumulative(healthy, |healthy|)
  {
    total := 0;
    for i := 0 to |healthy|
      invariant total == Cumulative(healthy, i)
    {
      Accumulate(healthy, i);
      total := Plus32(total, healthy[i].weight);
    }
  }

  method FindCovering(healthy: seq<Backend>, target: nat) returns (k: nat)
    requires healthy != []
    ensures k == Covering(healthy, target, 0)
  {
    var cumulative := 0;
    for i := 0 to |healthy|
      invariant cumulative == Cumulative(healthy, i)
      invariant Covering(healthy, target, i) == Covering(healthy, target, 0)
    {
      Accumulate(healthy, i);
      cumulative := Plus32(cumulative, healthy[i].weight);
      if target < cumulative {
        return i;
      }
    }
    return 0;
  }

  /** `remove_backend`: everything but the nodes with this key, in order. */
  function Without(bs: seq<Backend>, host: string, port: nat): seq<Backend> {
    if bs == [] then []
    else
      var front, last := bs[..|bs| - 1], bs[|bs| - 1];
      Without(front, host, port) + if last.Key() == (host, port) then [] else [last]
  }
}
