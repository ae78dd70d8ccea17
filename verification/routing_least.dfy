/** Least connections keeps the load balanced by weight. */
module LeastConnectionsBalance {
  import opened Collections
  import opened Backends
  import opened Routing

  /** `a` has no more load than `b`: active / weight, compared by cross multiplying. */
  ghost predicate NoHeavier(a: Backend, b: Backend) {
    a.active * b.weight <= b.active * a.weight
  }

  lemma Scale(x: nat, y: nat, k: nat)
    requires x <= y
    ensures x * k <= y * k
  {
  }

  lemma Cancel(x: nat, y: nat, k: nat)
    requires k > 0 && x * k <= y * k
    ensures x <= y
  {
    assert (y + 1) * k == y * k + k;
    if x > y {
      Scale(y + 1, x, k);
    }
  }

  lemma Swap(x: nat, y: nat, z: nat)
    ensures x * y * z == x * z * y
  {
  }

  lemma NoHeavierIsTransitive(a: Backend, b: Backend, c: Backend)
    requires b.weight > 0 && NoHeavier(a, b) && NoHeavier(b, c)
    ensures NoHeavier(a, c)
  {
    Scale(a.active * b.weight, b.active * a.weight, c.weight);
    Scale(b.active * c.weight, c.active * b.weight, a.weight);
    Swap(a.active, b.weight, c.weight);
    Swap(b.active, a.weight, c.weight);
    Swap(c.active, b.weight, a.weight);
    Cancel(a.active * c.weight, c.active * a.weight, b.weight);
  }

  /** What the comparison decides, a weight of zero included. */
  lemma LessDecides(a: Backend, b: Backend, c: Backend)
    ensures !Less(a, b) ==> NoHeavier(b, a)
    ensures Less(a, b) && NoHeavier(b, c) ==> NoHeavier(a, c)
  {
    if Less(a, b) && NoHeavier(b, c) {
      if b.weight > 0 {
        NoHeavierIsTransitive(a, b, c);
      } else {
        assert c.weight == 0 by {
          if c.weight > 0 { Scale(1, c.weight, b.active); }
        }
      }
    }
  }

  /** The scan ends at a backend that none of the others undercuts. */
  lemma {:induction false} LightestIsNoHeavier(bs: seq<Backend>, j: nat)
    requires j < |bs|
    ensures NoHeavier(bs[Lightest(bs)], bs[j])
    decreases |bs|
  {
    hide Less, NoHeavier;
    var n := |bs| - 1;
    if n == 0 {
      assert NoHeavier(bs[0], bs[0]) by { Itself(bs[0]); }
    } else {
      var best := bs[Lightest(bs[..n])];
      LessDecides(bs[n], best, bs[j]);
      if j < n {
        LightestIsNoHeavier(bs[..n], j);
      } else {
        Itself(bs[n]);
      }
    }
  }

  /** Ties go to the first: everything before the chosen backend is strictly heavier. */
  lemma {:induction false} LightestIsFirst(bs: seq<Backend>, j: nat)
    requires bs != [] && j < Lightest(bs) && bs[j].weight > 0
    ensures Less(bs[Lightest(bs)], bs[j])
    decreases |bs|
  {
    hide Less, NoHeavier;
    var n := |bs| - 1;
    var best := bs[Lightest(bs[..n])];
    if Less(bs[n], best) {
      LightestIsNoHeavier(bs[..n], j);
      StrictlyLighter(bs[n], best, bs[j]);
    } else {
      LightestIsFirst(bs[..n], j);
    }
  }

  lemma StrictlyLighter(a: Backend, b: Backend, c: Backend)
    requires Less(a, b) && NoHeavier(b, c) && c.weight > 0
    ensures Less(a, c)
  {
    if !Less(a, c) {
      LessDecides(a, c, c);
      NoHeavierIsTransitive(b, c, a);
    }
  }

  lemma Itself(a: Backend)
    ensures NoHeavier(a, a)
  {
  }

  // ---------------------------------------------------------------- runs

  /** Choose a backend, and open a connection to it if there is one. */
  function Dispatch(bs: seq<Backend>, cap: nat): (r: seq<Backend>)
    ensures |r| == |bs|
  {
    ChoosesEligible(bs, LeastConnections, 0, cap, "", 0);
    match Choose(bs, LeastConnections, 0, cap, "", 0)
    case None => bs
    case Some(i) => bs[i := bs[i].Incremented()]
  }

  function DispatchAll(bs: seq<Backend>, cap: nat, n: nat): (r: seq<Backend>)
    ensures |r| == |bs|
    decreases n
  {
    if n == 0 then bs else DispatchAll(Dispatch(bs, cap), cap, n - 1)
  }

  /** Take one connection away from a busy backend: it is no heavier than any that can still be
      chosen. And the cap holds. */
  ghost predicate Balanced(bs: seq<Backend>, cap: nat) {
    && (forall i, j :: 0 <= i < |bs| && 0 <= j < |bs| ==> Balances(bs[i], bs[j], cap))
    && (forall i :: 0 <= i < |bs| && cap != 0 ==> bs[i].active <= cap)
  }

  ghost predicate Balances(a: Backend, b: Backend, cap: nat) {
    a.active > 0 && b.Eligible(cap) ==> (a.active - 1) * b.weight <= b.active * a.weight
  }

  lemma ChosenIsNoHeavier(bs: seq<Backend>, cap: nat, j: nat)
    requires j < |bs| && bs[j].Eligible(cap)
    ensures var r := Choose(bs, LeastConnections, 0, cap, "", 0);
      r.Some? && r.value < |bs| && bs[r.value].Eligible(cap) && NoHeavier(bs[r.value], bs[j])
  {
    hide NoHeavier, Lightest;
    ChoosesEligible(bs, LeastConnections, 0, cap, "", 0);
    var ks := EligibleBelow(bs, cap, |bs|);
    assert j in ks;
    var p :| 0 <= p < |ks| && ks[p] == j;
    LightestIsNoHeavier(At(bs, ks), p);
  }

  lemma ChosenBalances(a: Backend, b: Backend, cap: nat)
    requires NoHeavier(a, b)
    ensures Balances(a.Incremented(), b, cap)
  {
  }

  lemma SelfBalances(a: Backend, cap: nat)
    ensures Balances(a, a, cap)
  {
    if a.active > 0 {
      Scale(a.active - 1, a.active, a.weight);
    }
  }

  lemma DispatchKeepsBalance(bs: seq<Backend>, cap: nat)
    requires Balanced(bs, cap)
    ensures Balanced(Dispatch(bs, cap), cap)
  {
    hide Choose, NoHeavier, Balances;
    ChoosesEligible(bs, LeastConnections, 0, cap, "", 0);
    var r := Choose(bs, LeastConnections, 0, cap, "", 0);
    if r.Some? {
      var i := r.value;
      var t := Dispatch(bs, cap);
      forall k, j | 0 <= k < |t| && 0 <= j < |t|
        ensures Balances(t[k], t[j], cap)
      {
        if k == i && j == i {
          SelfBalances(t[i], cap);
        } else if k == i {
          if bs[j].Eligible(cap) {
            ChosenIsNoHeavier(bs, cap, j);
            ChosenBalances(bs[i], bs[j], cap);
          } else {
            NotEligible(t[i], bs[j], cap);
          }
        } else if j == i {
          MoreStaysBalanced(bs[k], bs[i], cap);
        }
      }
    }
  }

  lemma NotEligible(a: Backend, b: Backend, cap: nat)
    requires !b.Eligible(cap)
    ensures Balances(a, b, cap)
  {
  }

  lemma MoreStaysBalanced(a: Backend, b: Backend, cap: nat)
    requires b.Eligible(cap) && Balances(a, b, cap)
    ensures Balances(a, b.Incremented(), cap)
  {
    assert (b.active + 1) * a.weight == b.active * a.weight + a.weight;
  }

  lemma {:induction false} DispatchAllKeepsBalance(bs: seq<Backend>, cap: nat, n: nat)
    requires Balanced(bs, cap)
    ensures Balanced(DispatchAll(bs, cap, n), cap)
    decreases n
  {
    hide Balanced, Dispatch;
    if n > 0 {
      DispatchKeepsBalance(bs, cap);
      DispatchAllKeepsBalance(Dispatch(bs, cap), cap, n - 1);
    }
  }

  /** Over any run of choices from an idle pool the load stays balanced by weight, and no count
      exceeds a cap. */
  lemma LoadStaysBalanced(bs: seq<Backend>, cap: nat, n: nat, i: nat, j: nat)
    requires forall k :: 0 <= k < |bs| ==> bs[k].active == 0
    requires i < |bs| && j < |bs|
    ensures var t := DispatchAll(bs, cap, n);
      && (t[i].active > 0 && t[j].Eligible(cap) ==> (t[i].active - 1) * t[j].weight <= t[j].active * t[i].weight)
      && (cap != 0 ==> t[i].active <= cap)
  {
    hide DispatchAll;
    DispatchAllKeepsBalance(bs, cap, n);
    assert Balances(DispatchAll(bs, cap, n)[i], DispatchAll(bs, cap, n)[j], cap);
  }

  /** Each choice adds one connection, until no backend is eligible any more. */
  lemma DispatchAddsOne(bs: seq<Backend>, cap: nat)
    ensures Sum(Dispatch(bs, cap), Connections) ==
      Sum(bs, Connections) + if exists k :: 0 <= k < |bs| && bs[k].Eligible(cap) then 1 else 0
  {
    hide Choose;
    ChoosesEligible(bs, LeastConnections, 0, cap, "", 0);
    var r := Choose(bs, LeastConnections, 0, cap, "", 0);
    if r.Some? {
      SumUpdate(bs, r.value, bs[r.value].Incremented(), Connections);
    }
  }

  function Connections(b: Backend): int { b.active }
}
