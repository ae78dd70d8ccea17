/** Weighted round robin is exactly fair, and exactly when it is fair across the wrap of its
    counter. */
module RoundRobinFairness {
  import opened Backends
  import opened Remainders
  import opened Words
  import opened Routing

  /** The next `n` choices from a fixed list of candidates. */
  ghost function Choices(bs: seq<Backend>, counter: nat, n: nat): (ks: seq<nat>)
    requires bs != []
    ensures |ks| == n
    decreases n
  {
    if n == 0 then [] else [NextInTurn(bs, counter)] + Choices(bs, Counted(bs, counter), n - 1)
  }

  /** How often backend `i` is chosen among the next `n`. */
  ghost function Picks(bs: seq<Backend>, counter: nat, n: nat, i: nat): nat
    requires bs != []
  {
    multiset(Choices(bs, counter, n))[i]
  }

  /** The weights can be summed in 32 bits, and are not all zero. */
  ghost predicate Weighted(bs: seq<Backend>) {
    bs != [] && 0 < Weight(bs) < WORD32
  }

  // ---------------------------------------------------------------- whose turn it is

  lemma {:induction false} WeightGrows(bs: seq<Backend>, i: nat, j: nat)
    requires i <= j <= |bs|
    ensures Weight(bs[..i]) <= Weight(bs[..j])
    decreases j
  {
    if i < j {
      WeightGrows(bs, i, j - 1);
      assert bs[..j][..j - 1] == bs[..j - 1];
    }
  }

  lemma WeightStep(bs: seq<Backend>, i: nat)
    requires i < |bs|
    ensures Weight(bs[..i + 1]) == Weight(bs[..i]) + bs[i].weight
  {
    assert bs[..i + 1][..i] == bs[..i];
  }

  lemma CumulativeIsWeight(bs: seq<Backend>, i: nat)
    requires Weighted(bs) && i <= |bs|
    ensures Cumulative(bs, i) == Weight(bs[..i]) <= Weight(bs) == Cumulative(bs, |bs|)
  {
    hide Weight;
    WeightGrows(bs, i, |bs|);
    assert bs[..|bs|] == bs;
  }

  /** Each backend owns an interval of the turns, as long as its weight. */
  ghost predicate Owns(bs: seq<Backend>, i: nat, turn: nat)
    requires i < |bs|
  {
    Weight(bs[..i]) <= turn < Weight(bs[..i + 1])
  }

  lemma OneOwner(bs: seq<Backend>, i: nat, j: nat, turn: nat)
    requires i < |bs| && j < |bs| && Owns(bs, i, turn) && Owns(bs, j, turn)
    ensures i == j
  {
    if i < j {
      WeightGrows(bs, i + 1, j);
    } else if j < i {
      WeightGrows(bs, j + 1, i);
    }
  }

  lemma ChosenOwns(bs: seq<Backend>, counter: nat)
    requires Weighted(bs)
    ensures Owns(bs, NextInTurn(bs, counter), Mod(counter, Weight(bs)))
    ensures Counted(bs, counter) == (counter + 1) % WORD32
  {
    var k := NextInTurn(bs, counter);
    CumulativeIsWeight(bs, k);
    CumulativeIsWeight(bs, k + 1);
    hide Cumulative, NextInTurn, Weight, Mod;
    SomeBackendIsInTurn(bs, counter);
    assert Cumulative(bs, k) <= Mod(counter, Cumulative(bs, |bs|));
  }

  lemma ChosenIff(bs: seq<Backend>, counter: nat, i: nat)
    requires Weighted(bs) && i < |bs|
    ensures NextInTurn(bs, counter) == i <==> Owns(bs, i, Mod(counter, Weight(bs)))
  {
    hide NextInTurn, Owns, Weight, Mod;
    ChosenOwns(bs, counter);
    if Owns(bs, i, Mod(counter, Weight(bs))) {
      OneOwner(bs, i, NextInTurn(bs, counter), Mod(counter, Weight(bs)));
    }
  }

  // ---------------------------------------------------------------- counting turns

  /** How many of c, ..., c + n - 1 leave a remainder in [lo, hi). */
  ghost function Hits(lo: nat, hi: nat, m: nat, c: nat, n: nat): nat
    requires m > 0
    decreases n
  {
    if n == 0 then 0 else Hits(lo, hi, m, c, n - 1) + Hit(lo, hi, m, c + n - 1)
  }

  ghost function Hit(lo: nat, hi: nat, m: nat, x: nat): nat
    requires m > 0
  {
    if lo <= Mod(x, m) < hi then 1 else 0
  }

  lemma {:induction false} HitsSplit(lo: nat, hi: nat, m: nat, c: nat, n: nat, k: nat)
    requires m > 0
    ensures Hits(lo, hi, m, c, n + k) == Hits(lo, hi, m, c, n) + Hits(lo, hi, m, c + n, k)
    decreases k
  {
    hide Hit;
    if k > 0 {
      HitsSplit(lo, hi, m, c, n, k - 1);
    }
  }

  lemma PeriodicHit(lo: nat, hi: nat, m: nat, x: nat)
    requires m > 0
    ensures Hit(lo, hi, m, x + m) == Hit(lo, hi, m, x)
  {
    hide Mod;
    ModPeriod(x, m);
  }

  lemma {:induction false} FirstHits(lo: nat, hi: nat, m: nat, n: nat)
    requires lo <= hi <= m && n <= m && m > 0
    ensures Hits(lo, hi, m, 0, n) == if n <= lo then 0 else if n <= hi then n - lo else hi - lo
    decreases n
  {
    if n > 0 {
      FirstHits(lo, hi, m, n - 1);
      hide Mod;
      ModSmall(n - 1, m);
    }
  }

  /** Sliding a window of the full period by one changes nothing. */
  lemma {:induction false} FullPeriod(lo: nat, hi: nat, m: nat, c: nat)
    requires lo <= hi <= m && m > 0
    ensures Hits(lo, hi, m, c, m) == hi - lo
    decreases c
  {
    if c == 0 {
      FirstHits(lo, hi, m, m);
    } else {
      FullPeriod(lo, hi, m, c - 1);
      HitsSplit(lo, hi, m, c - 1, 1, m - 1);
      HitsSplit(lo, hi, m, c, m - 1, 1);
      hide Hit;
      PeriodicHit(lo, hi, m, c - 1);
      NoHits(lo, hi, m, c - 1);
      NoHits(lo, hi, m, c + m - 1);
    }
  }

  lemma {:induction false} ManyPeriods(lo: nat, hi: nat, m: nat, c: nat, q: nat, rest: nat)
    requires lo <= hi <= m && m > 0 && rest <= m
    ensures q * (hi - lo) <= Hits(lo, hi, m, c, q * m + rest) <= (q + 1) * (hi - lo)
    decreases q
  {
    hide Hits;
    FullPeriod(lo, hi, m, c);
    if q == 0 {
      HitsSplit(lo, hi, m, c, rest, m - rest);
    } else {
      var n := (q - 1) * m + rest;
      assert q * m + rest == m + n;
      HitsSplit(lo, hi, m, c, m, n);
      ManyPeriods(lo, hi, m, c + m, q - 1, rest);
      assert (q - 1) * (hi - lo) + (hi - lo) == q * (hi - lo);
      assert q * (hi - lo) + (hi - lo) == (q + 1) * (hi - lo);
    }
  }

  // ---------------------------------------------------------------- the choices count turns

  /** The counter does not wrap before the last of these choices, or its wrap does not matter. */
  ghost predicate WrapIsHarmless(bs: seq<Backend>, x: nat, n: nat)
    requires Weighted(bs)
  {
    x + n <= WORD32 || Mod(WORD32, Weight(bs)) == 0
  }

  lemma WrappedTurn(x: nat, m: nat)
    requires m > 0 && (x < WORD32 || Mod(WORD32, m) == 0)
    ensures Mod(x % WORD32, m) == Mod(x, m)
  {
    hide Mod;
    if x >= WORD32 {
      ModMultiple(WORD32, x / WORD32, x % WORD32, m);
    }
  }

  lemma {:induction false} PicksAreHits(bs: seq<Backend>, x: nat, n: nat, i: nat)
    requires Weighted(bs) && i < |bs| && WrapIsHarmless(bs, x, n)
    ensures Picks(bs, x % WORD32, n, i) == Hits(Weight(bs[..i]), Weight(bs[..i + 1]), Weight(bs), x, n)
    decreases n
  {
    hide NextInTurn, Counted, Weight, Mod, Hits, Choices;
    var lo, hi, m := Weight(bs[..i]), Weight(bs[..i + 1]), Weight(bs);
    NoHits(lo, hi, m, x);
    if n == 0 {
      assert Choices(bs, x % WORD32, 0) == [];
    } else {
      var c := x % WORD32;
      ChosenIff(bs, c, i);
      WrappedTurn(x, m);
      ChoicesCons(bs, x, n);
      PicksAreHits(bs, x + 1, n - 1, i);
      HitsSplit(lo, hi, m, x, 1, n - 1);
      assert Hit(lo, hi, m, x) == if NextInTurn(bs, c) == i then 1 else 0;
    }
  }

  lemma NoHits(lo: nat, hi: nat, m: nat, x: nat)
    requires m > 0
    ensures Hits(lo, hi, m, x, 0) == 0 && Hits(lo, hi, m, x, 1) == Hit(lo, hi, m, x)
  {
    assert Hits(lo, hi, m, x, 0) == 0;
  }

  /** Any W consecutive choices, from any counter, choose each backend exactly weight times. */
  lemma ExactlyFair(bs: seq<Backend>, counter: nat, i: nat)
    requires Weighted(bs) && counter < WORD32 && i < |bs| && WrapIsHarmless(bs, counter, Weight(bs))
    ensures Picks(bs, counter, Weight(bs), i) == bs[i].weight
  {
    hide Picks, Weight, Hits, Mod;
    PicksAreHits(bs, counter, Weight(bs), i);
    Interval(bs, i);
    FullPeriod(Weight(bs[..i]), Weight(bs[..i + 1]), Weight(bs), counter);
  }

  lemma Interval(bs: seq<Backend>, i: nat)
    requires i < |bs|
    ensures Weight(bs[..i]) + bs[i].weight == Weight(bs[..i + 1]) <= Weight(bs)
  {
    WeightStep(bs, i);
    WeightGrows(bs, i + 1, |bs|);
    assert bs[..|bs|] == bs;
  }

  /** Any n consecutive choices are fair up to one round. */
  lemma NearlyFair(bs: seq<Backend>, counter: nat, n: nat, i: nat)
    requires Weighted(bs) && counter < WORD32 && i < |bs| && WrapIsHarmless(bs, counter, n)
    ensures n / Weight(bs) * bs[i].weight <= Picks(bs, counter, n, i) <= (n / Weight(bs) + 1) * bs[i].weight
  {
    hide Picks, Weight, Hits, Mod;
    PicksAreHits(bs, counter, n, i);
    Interval(bs, i);
    var m := Weight(bs);
    ManyPeriods(Weight(bs[..i]), Weight(bs[..i + 1]), m, counter, n / m, n - n / m * m);
  }

  // ---------------------------------------------------------------- across the wrap

  /** Every window of W choices is fair, the ones across the wrap of the counter included. */
  ghost predicate AlwaysFair(bs: seq<Backend>)
    requires bs != []
  {
    forall counter, i :: 0 <= counter < WORD32 && 0 <= i < |bs| ==> Picks(bs, counter, Weight(bs), i) == bs[i].weight
  }

  lemma {:induction false} ChoicesSnoc(bs: seq<Backend>, x: nat, n: nat)
    requires Weighted(bs)
    ensures Choices(bs, x % WORD32, n + 1) == Choices(bs, x % WORD32, n) + [NextInTurn(bs, (x + n) % WORD32)]
    decreases n
  {
    hide NextInTurn, Counted, Weight, Mod;
    ChosenOwns(bs, x % WORD32);
    assert (x % WORD32 + 1) % WORD32 == (x + 1) % WORD32;
    if n > 0 {
      ChoicesSnoc(bs, x + 1, n - 1);
      assert x + 1 + (n - 1) == x + n;
    }
  }

  /** If windows that start one apart are both fair, the choice that leaves is the one that enters. */
  lemma SameAgain(bs: seq<Backend>, x: nat)
    requires Weighted(bs) && AlwaysFair(bs)
    ensures NextInTurn(bs, x % WORD32) == NextInTurn(bs, (x + Weight(bs)) % WORD32)
  {
    hide NextInTurn, Counted, Weight, Choices, Mod;
    var m, c, d := Weight(bs), x % WORD32, (x + 1) % WORD32;
    var k, l := NextInTurn(bs, c), NextInTurn(bs, (x + m) % WORD32);
    ChoicesCons(bs, x, m + 1);
    ChoicesSnoc(bs, x, m);
    assert Picks(bs, c, m, k) == Picks(bs, d, m, k);
    assert multiset([k] + Choices(bs, d, m)) == multiset{k} + multiset(Choices(bs, d, m));
    assert multiset(Choices(bs, c, m) + [l]) == multiset(Choices(bs, c, m)) + multiset{l};
    assert (multiset{k} + multiset(Choices(bs, d, m)))[k] == 1 + Picks(bs, d, m, k);
    assert (multiset(Choices(bs, c, m)) + multiset{l})[k] == Picks(bs, c, m, k) + multiset{l}[k];
  }

  lemma ChoicesCons(bs: seq<Backend>, x: nat, n: nat)
    requires Weighted(bs) && n > 0
    ensures Choices(bs, x % WORD32, n) == [NextInTurn(bs, x % WORD32)] + Choices(bs, (x + 1) % WORD32, n - 1)
  {
    hide NextInTurn, Counted, Weight, Mod;
    ChosenOwns(bs, x % WORD32);
    assert (x % WORD32 + 1) % WORD32 == (x + 1) % WORD32;
  }

  /** The owner of a turn also owns the turn that the wrap puts in its place. */
  lemma OwnerShifts(bs: seq<Backend>, turn: nat)
    requires Weighted(bs) && AlwaysFair(bs) && turn < Weight(bs)
    ensures NextInTurn(bs, turn) == NextInTurn(bs, Mod(Mod(WORD32, Weight(bs)) + turn, Weight(bs)))
  {
    hide NextInTurn, Weight, AlwaysFair, Owns, Mod;
    var m := Weight(bs);
    var x := WORD32 - m + turn;
    SameAgain(bs, x);
    assert x % WORD32 == x && (x + m) % WORD32 == turn;
    var shifted := Mod(Mod(WORD32, m) + turn, m);
    ModPeriod(WORD32 - m, m);
    ModSum(WORD32 - m, turn, m);
    ChosenOwns(bs, x);
    TurnIsOwned(bs, shifted);
    OneOwner(bs, NextInTurn(bs, x), NextInTurn(bs, shifted), shifted);
  }

  /** Owners come in order: between two turns of one backend, every turn is its own. */
  lemma OwnersAreIntervals(bs: seq<Backend>, i: nat, first: nat, turn: nat, last: nat)
    requires i < |bs| && Owns(bs, i, first) && Owns(bs, i, last) && first <= turn <= last
    ensures Owns(bs, i, turn)
  {
  }

  /** Fair across the wrap, unless the weights divide 2^32, only if one backend has all the weight. */
  lemma FairNeedsOne(bs: seq<Backend>)
    requires Weighted(bs) && AlwaysFair(bs) && Mod(WORD32, Weight(bs)) != 0
    ensures exists i :: 0 <= i < |bs| && bs[i].weight == Weight(bs)
  {
    hide NextInTurn, Weight, AlwaysFair, Owns, Mod;
    var m := Weight(bs);
    var r := Mod(WORD32, m);
    var i := NextInTurn(bs, 0);
    OwnerShifts(bs, 0);
    OwnerShifts(bs, m - 1);
    ModSmall(r, m);
    ModSmall(r - 1, m);
    ModPeriod(r - 1, m);
    assert r + (m - 1) == (r - 1) + m;
    TurnIsOwned(bs, 0);
    TurnIsOwned(bs, r);
    TurnIsOwned(bs, m - 1);
    TurnIsOwned(bs, r - 1);
    assert Owns(bs, i, 0) && Owns(bs, i, r);
    OwnersAreIntervals(bs, i, 0, r - 1, r);
    OneOwner(bs, i, NextInTurn(bs, r - 1), r - 1);
    OwnsAll(bs, i);
  }

  lemma TurnIsOwned(bs: seq<Backend>, turn: nat)
    requires Weighted(bs) && turn < Weight(bs)
    ensures Owns(bs, NextInTurn(bs, turn), turn)
  {
    hide NextInTurn, Weight, Owns, Mod;
    ChosenOwns(bs, turn);
    ModSmall(turn, Weight(bs));
  }

  lemma OwnsAll(bs: seq<Backend>, i: nat)
    requires Weighted(bs) && i < |bs| && Owns(bs, i, 0) && Owns(bs, i, Weight(bs) - 1)
    ensures bs[i].weight == Weight(bs)
  {
    Interval(bs, i);
  }

  lemma OneIsFair(bs: seq<Backend>, i: nat, counter: nat, k: nat)
    requires Weighted(bs) && i < |bs| && k < |bs| && bs[i].weight == Weight(bs)
    ensures Picks(bs, counter % WORD32, Weight(bs), k) == bs[k].weight
  {
    hide NextInTurn, Weight, Owns, Choices;
    OnlyOne(bs, i, counter, Weight(bs));
    if k < i {
      Interval(bs, k); Interval(bs, i); WeightGrows(bs, k + 1, i);
    } else if i < k {
      Interval(bs, i); Interval(bs, k); WeightGrows(bs, i + 1, k);
    }
  }

  lemma {:induction false} OnlyOne(bs: seq<Backend>, i: nat, x: nat, n: nat)
    requires Weighted(bs) && i < |bs| && bs[i].weight == Weight(bs)
    ensures multiset(Choices(bs, x % WORD32, n)) == multiset{}[i := n]
    decreases n
  {
    hide NextInTurn, Weight, Owns, Counted, Choices;
    if n == 0 {
      assert Choices(bs, x % WORD32, 0) == [];
    } else {
      ChoicesCons(bs, x, n);
      OnlyOne(bs, i, x + 1, n - 1);
      assert NextInTurn(bs, x % WORD32) == i by { AllMine(bs, i, x % WORD32); }
      assert multiset([i] + Choices(bs, (x + 1) % WORD32, n - 1)) == multiset{i} + multiset{}[i := n - 1];
    }
  }

  lemma AllMine(bs: seq<Backend>, i: nat, counter: nat)
    requires Weighted(bs) && i < |bs| && bs[i].weight == Weight(bs)
    ensures NextInTurn(bs, counter) == i
  {
    hide NextInTurn, Weight;
    Interval(bs, i);
    ChosenIff(bs, counter, i);
  }

  /** While the weights can be summed, fairness survives the wrap of the counter exactly when the
      total weight divides 2^32 or belongs to a single backend. */
  lemma FairAcrossTheCounterIff(bs: seq<Backend>)
    requires Weighted(bs)
    ensures AlwaysFair(bs) <==>
      Mod(WORD32, Weight(bs)) == 0 || exists i :: 0 <= i < |bs| && bs[i].weight == Weight(bs)
  {
    hide Picks, Weight, Hits, Mod;
    if AlwaysFair(bs) && Mod(WORD32, Weight(bs)) != 0 {
      FairNeedsOne(bs);
    }
    if Mod(WORD32, Weight(bs)) == 0 {
      forall counter, i | 0 <= counter < WORD32 && 0 <= i < |bs|
        ensures Picks(bs, counter, Weight(bs), i) == bs[i].weight
      {
        ExactlyFair(bs, counter, i);
      }
    }
    if i :| 0 <= i < |bs| && bs[i].weight == Weight(bs) {
      forall counter, k | 0 <= counter < WORD32 && 0 <= k < |bs|
        ensures Picks(bs, counter, Weight(bs), k) == bs[k].weight
      {
        OneIsFair(bs, i, counter, k);
        assert counter % WORD32 == counter;
      }
    }
  }

  // ---------------------------------------------------------------- weights that cannot be summed

  /** The weights that a pool can have: the constructor makes them positive, the type 32-bit. */
  ghost predicate Configurable(bs: seq<Backend>) {
    bs != [] && forall i :: 0 <= i < |bs| ==> 0 < bs[i].weight < WORD32
  }

  /** The backend at which the running sum reaches 2^32. */
  lemma {:induction false} SumOverflowsAt(bs: seq<Backend>, n: nat) returns (j: nat)
    requires n <= |bs| && Weight(bs[..n]) >= WORD32
    ensures j < n && Weight(bs[..j]) < WORD32 <= Weight(bs[..j + 1])
    decreases n
  {
    assert bs[..0] == [];
    if Weight(bs[..n - 1]) >= WORD32 {
      j := SumOverflowsAt(bs, n - 1);
    } else {
      j := n - 1;
    }
  }

  /** That backend is never in turn: its running sum is smaller than the one before it. */
  lemma OverflowIsNeverInTurn(bs: seq<Backend>, j: nat, counter: nat)
    requires Configurable(bs) && j < |bs| && Weight(bs[..j]) < WORD32 <= Weight(bs[..j + 1])
    ensures NextInTurn(bs, counter) != j
  {
    WeightStep(bs, j);
    assert Cumulative(bs, j) == Weight(bs[..j]);
    assert Cumulative(bs, j + 1) == Weight(bs[..j]) + bs[j].weight - WORD32;
    assert bs[..0] == [];
    if Cumulative(bs, |bs|) > 0 {
      hide Cumulative, NextInTurn, Weight, Mod;
      SomeBackendIsInTurn(bs, counter);
    }
  }

  lemma {:induction false} OverflowIsNeverPicked(bs: seq<Backend>, j: nat, counter: nat, n: nat)
    requires Configurable(bs) && j < |bs| && Weight(bs[..j]) < WORD32 <= Weight(bs[..j + 1])
    ensures Picks(bs, counter, n, j) == 0
    decreases n
  {
    hide NextInTurn, Counted, Weight, Configurable;
    if n > 0 {
      OverflowIsNeverInTurn(bs, j, counter);
      OverflowIsNeverPicked(bs, j, Counted(bs, counter), n - 1);
    }
  }

  /** Every window of W choices is fair exactly when the weights can be summed in 32 bits and the
      total divides 2^32 or belongs to a single backend. */
  lemma AlwaysFairIff(bs: seq<Backend>)
    requires Configurable(bs)
    ensures AlwaysFair(bs) <==>
      && Weight(bs) < WORD32
      && (Mod(WORD32, Weight(bs)) == 0 || exists i :: 0 <= i < |bs| && bs[i].weight == Weight(bs))
  {
    WeightIsPositive(bs);
    hide Picks, Weight, Mod;
    if Weight(bs) < WORD32 {
      FairAcrossTheCounterIff(bs);
    } else {
      assert bs[..|bs|] == bs;
      var j := SumOverflowsAt(bs, |bs|);
      OverflowIsNeverPicked(bs, j, 0, Weight(bs));
      assert Picks(bs, 0, Weight(bs), j) != bs[j].weight;
    }
  }

  lemma WeightIsPositive(bs: seq<Backend>)
    requires Configurable(bs)
    ensures Weight(bs) > 0
  {
    Interval(bs, 0);
  }

  /** Two backends of weight 2^31: the total is 2^32, the 32-bit sum is zero, and the second one is
      never chosen. */
  lemma TwoHeavyBackendsAreNot(a: Backend, b: Backend, counter: nat, n: nat)
    requires a.weight == b.weight == WORD32 / 2
    ensures Weight([a, b]) == WORD32 && Mod(WORD32, Weight([a, b])) == 0 && Picks([a, b], counter, n, 1) == 0
  {
    var bs := [a, b];
    WeightStep(bs, 0);
    WeightStep(bs, 1);
    assert bs[..0] == [] && bs[..2] == bs;
    assert Weight(bs) == WORD32;
    ModIs(WORD32, WORD32, 1, 0);
    hide Picks, Weight, Mod;
    OverflowIsNeverPicked(bs, 1, counter, n);
  }

  /** Three backends of weight one are not fair there: the first is chosen twice in a round. */
  lemma ThreeEqualBackendsAreNot(a: Backend, b: Backend, c: Backend)
    requires a.weight == b.weight == c.weight == 1
    ensures Weight([a, b, c]) == 3 && Picks([a, b, c], WORD32 - 1, 3, 0) == 2
  {
    var bs := [a, b, c];
    ThreeWeights(a, b, c);
    hide NextInTurn, Weight, Owns, Counted, Choices, Mod;
    ModIs(WORD32 - 1, 3, 1431655765, 0);
    ModSmall(0, 3);
    ModSmall(1, 3);
    ChosenIff(bs, WORD32 - 1, 0);
    ChosenIff(bs, 0, 0);
    ChosenIff(bs, 1, 1);
    ChoicesCons(bs, WORD32 - 1, 3);
    ChoicesCons(bs, WORD32, 2);
    ChoicesCons(bs, 1, 1);
    assert Choices(bs, 2, 0) == [];
    assert Choices(bs, WORD32 - 1, 3) == [0, 0, 1];
  }

  lemma ThreeWeights(a: Backend, b: Backend, c: Backend)
    requires a.weight == b.weight == c.weight == 1
    ensures var bs := [a, b, c]; Weight(bs) == 3 && Owns(bs, 0, 0) && Owns(bs, 1, 1)
  {
    var bs := [a, b, c];
    WeightStep(bs, 0);
    WeightStep(bs, 1);
    WeightStep(bs, 2);
    assert bs[..0] == [] && bs[..3] == bs;
  }
}
