/** The laws of `select_backend` itself: whom it returns, and how often. */
module RoutingSelection {
  import opened Collections
  import opened Backends
  import opened Words
  import opened Remainders
  import opened Routing
  import opened RoundRobinFairness

  /** Healthy, and below the cap if there is one. */
  ghost predicate MayBeChosen(b: Backend, cap: nat) {
    b.health.Healthy? && (cap == 0 || b.active < cap)
  }

  /** The total weight of those that may be chosen. */
  ghost function OpenWeight(bs: seq<Backend>, cap: nat): nat {
    if bs == [] then 0
    else
      var last := bs[|bs| - 1];
      OpenWeight(bs[..|bs| - 1], cap) + if MayBeChosen(last, cap) then last.weight else 0
  }

  // ---------------------------------------------------------------- a named backend

  /** A named backend that may be chosen is returned, whatever the algorithm and the counter. */
  lemma NamedBackendIsReturned(bs: seq<Backend>, algorithm: Algorithm, counter: nat, cap: nat, host: string,
      port: nat, k: nat)
    requires host != "" && port > 0 && k < |bs| && MayBeChosen(bs[k], cap)
    requires bs[k].host == host && bs[k].port == port
    requires forall j :: 0 <= j < k ==> bs[j].host != host || bs[j].port != port
    ensures Choose(bs, algorithm, counter, cap, host, port) == Some(k)
  {
    hide NextInTurn, Lightest;
    assert Find(bs, host, port) == k by {
      assert bs[k].Key() == (host, port);
    }
  }

  /** A name that is not in the pool, or not to be chosen now, is as good as none. */
  lemma OtherNamesDoNotMatter(bs: seq<Backend>, algorithm: Algorithm, counter: nat, cap: nat, host: string, port: nat)
    requires forall j :: 0 <= j < |bs| && bs[j].host == host && bs[j].port == port ==> !MayBeChosen(bs[j], cap)
    ensures Choose(bs, algorithm, counter, cap, host, port) == Choose(bs, algorithm, counter, cap, "", 0)
  {
    hide NextInTurn, Lightest;
  }

  // ---------------------------------------------------------------- round robin

  /** The next `n` backends that an unnamed round robin returns. */
  ghost function Selections(bs: seq<Backend>, cap: nat, counter: nat, n: nat): (ks: seq<nat>)
    requires exists k :: 0 <= k < |bs| && bs[k].Eligible(cap)
    ensures |ks| == n
    decreases n
  {
    if n == 0 then []
    else
      ChoosesEligible(bs, RoundRobin, counter, cap, "", 0);
      [Choose(bs, RoundRobin, counter, cap, "", 0).value]
      + Selections(bs, cap, Counted(Candidates(bs, cap), counter), n - 1)
  }

  ghost predicate Rising(ks: seq<nat>) {
    forall i, j :: 0 <= i < j < |ks| ==> ks[i] < ks[j]
  }

  lemma RisingSnoc(ks: seq<nat>, k: nat)
    requires Rising(ks) && forall i :: i in ks ==> i < k
    ensures Rising(ks + [k])
  {
    assert forall i :: 0 <= i < |ks| ==> ks[i] in ks;
  }

  lemma {:induction false} Increasing(bs: seq<Backend>, cap: nat, n: nat)
    requires n <= |bs|
    ensures Rising(EligibleBelow(bs, cap, n))
  {
    if n > 0 {
      Increasing(bs, cap, n - 1);
      if bs[n - 1].Eligible(cap) {
        RisingSnoc(EligibleBelow(bs, cap, n - 1), n - 1);
      } else {
        assert EligibleBelow(bs, cap, n) == EligibleBelow(bs, cap, n - 1);
      }
    }
  }

  /** The pool's choices are the turns of its candidates. */
  lemma {:induction false} SelectionsAreTurns(bs: seq<Backend>, cap: nat, counter: nat, n: nat, i: nat)
    requires exists k :: 0 <= k < |bs| && bs[k].Eligible(cap)
    requires i < |EligibleBelow(bs, cap, |bs|)|
    ensures Candidates(bs, cap) != []
    ensures multiset(Selections(bs, cap, counter, n))[EligibleBelow(bs, cap, |bs|)[i]]
         == Picks(Candidates(bs, cap), counter, n, i)
    decreases n
  {
    hide NextInTurn, Counted, Choose, EligibleBelow;
    var ks, cs := EligibleBelow(bs, cap, |bs|), Candidates(bs, cap);
    Increasing(bs, cap, |bs|);
    assert |cs| == |ks|;
    hide Candidates;
    if n > 0 {
      TurnIsChosen(bs, cap, counter);
      var turn, rest := NextInTurn(cs, counter), Selections(bs, cap, Counted(cs, counter), n - 1);
      SelectionsAreTurns(bs, cap, Counted(cs, counter), n - 1, i);
      assert Selections(bs, cap, counter, n) == [ks[turn]] + rest;
      assert Choices(cs, counter, n) == [turn] + Choices(cs, Counted(cs, counter), n - 1);
      hide Selections, Choices;
      assert ks[turn] == ks[i] <==> turn == i;
      assert multiset([ks[turn]] + rest) == multiset{ks[turn]} + multiset(rest);
    }
  }

  lemma TurnIsChosen(bs: seq<Backend>, cap: nat, counter: nat)
    requires EligibleBelow(bs, cap, |bs|) != []
    ensures |Candidates(bs, cap)| == |EligibleBelow(bs, cap, |bs|)|
    ensures Choose(bs, RoundRobin, counter, cap, "", 0)
         == Some(EligibleBelow(bs, cap, |bs|)[NextInTurn(Candidates(bs, cap), counter)])
  {
    hide NextInTurn, EligibleBelow;
  }

  lemma {:induction false} CandidatesWeigh(bs: seq<Backend>, cap: nat, n: nat)
    requires n <= |bs|
    ensures Weight(At(bs, EligibleBelow(bs, cap, n))) == OpenWeight(bs[..n], cap)
    decreases n
  {
    if n > 0 {
      CandidatesWeigh(bs, cap, n - 1);
      var ks, more := EligibleBelow(bs, cap, n - 1), EligibleBelow(bs, cap, n);
      assert bs[..n][..n - 1] == bs[..n - 1];
      assert more == ks + if bs[n - 1].Eligible(cap) then [n - 1] else [];
      hide EligibleBelow, Weight, At;
      if bs[n - 1].Eligible(cap) {
        AtSnoc(bs, ks, n - 1);
      } else {
        assert more == ks;
      }
    }
  }

  lemma AtSnoc(bs: seq<Backend>, ks: seq<nat>, k: nat)
    requires (forall i :: i in ks ==> i < |bs|) && k < |bs|
    ensures Weight(At(bs, ks + [k])) == Weight(At(bs, ks)) + bs[k].weight
  {
    var more := At(bs, ks + [k]);
    assert more[..|ks|] == At(bs, ks) && more[|ks|] == bs[k];
  }

  lemma PositionOf(bs: seq<Backend>, cap: nat, k: nat) returns (i: nat)
    requires k < |bs| && bs[k].Eligible(cap)
    ensures var ks := EligibleBelow(bs, cap, |bs|); i < |ks| && ks[i] == k && Candidates(bs, cap)[i] == bs[k]
  {
    var ks := EligibleBelow(bs, cap, |bs|);
    assert k in ks;
    i :| 0 <= i < |ks| && ks[i] == k;
  }

  /** Over W consecutive selections, W being the total weight of the backends that may be chosen,
      each of them is returned exactly its weight times, from any counter, if the counter does not
      wrap on the way or W divides 2^32. */
  lemma SelectionIsFair(bs: seq<Backend>, cap: nat, counter: nat, k: nat)
    requires k < |bs| && MayBeChosen(bs[k], cap) && counter < WORD32
    requires var w := OpenWeight(bs, cap); 0 < w < WORD32 && (counter + w <= WORD32 || Mod(WORD32, w) == 0)
    ensures bs[k].Eligible(cap)
    ensures multiset(Selections(bs, cap, counter, OpenWeight(bs, cap)))[k] == bs[k].weight
  {
    assert bs[..|bs|] == bs;
    CandidatesWeigh(bs, cap, |bs|);
    var i := PositionOf(bs, cap, k);
    hide OpenWeight, Picks, Mod, EligibleBelow, Weight;
    SelectionsAreTurns(bs, cap, counter, OpenWeight(bs, cap), i);
    ExactlyFair(Candidates(bs, cap), counter, i);
  }

  ghost predicate WithinOneRound(n: nat, total: nat, weight: nat, times: nat)
    requires total > 0
  {
    n / total * weight <= times <= (n / total + 1) * weight
  }

  lemma TurnsAreNearlyFair(cs: seq<Backend>, counter: nat, n: nat, i: nat)
    requires Weighted(cs) && counter < WORD32 && i < |cs| && WrapIsHarmless(cs, counter, n)
    ensures WithinOneRound(n, Weight(cs), cs[i].weight, Picks(cs, counter, n, i))
  {
    hide Picks, Weight;
    NearlyFair(cs, counter, n, i);
  }

  /** And over any n selections between floor(n/W) and floor(n/W) + 1 times its weight. */
  lemma SelectionIsNearlyFair(bs: seq<Backend>, cap: nat, counter: nat, n: nat, k: nat)
    requires k < |bs| && MayBeChosen(bs[k], cap) && counter < WORD32
    requires var w := OpenWeight(bs, cap); 0 < w < WORD32 && (counter + n <= WORD32 || Mod(WORD32, w) == 0)
    ensures bs[k].Eligible(cap)
    ensures WithinOneRound(n, OpenWeight(bs, cap), bs[k].weight, multiset(Selections(bs, cap, counter, n))[k])
  {
    assert bs[..|bs|] == bs;
    CandidatesWeigh(bs, cap, |bs|);
    var i := PositionOf(bs, cap, k);
    hide OpenWeight, Picks, Mod, EligibleBelow, Weight, WithinOneRound;
    var cs := Candidates(bs, cap);
    SelectionsAreTurns(bs, cap, counter, n, i);
    hide Selections, Candidates;
    TurnsAreNearlyFair(cs, counter, n, i);
    assert Weight(cs) == OpenWeight(bs, cap) && cs[i].weight == bs[k].weight;
  }

  /** While something is selected by turns, the counter moves by one modulo 2^32. */
  lemma CounterMoves(bs: seq<Backend>, cap: nat, counter: nat)
    requires 0 < OpenWeight(bs, cap) < WORD32
    ensures Counted(Candidates(bs, cap), counter) == (counter + 1) % WORD32
  {
    assert bs[..|bs|] == bs;
    CandidatesWeigh(bs, cap, |bs|);
    hide OpenWeight, EligibleBelow, NextInTurn;
    assert Weight([]) == 0;
    ChosenOwns(Candidates(bs, cap), counter);
  }
}
