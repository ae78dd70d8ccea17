/** The global buffer budget: a 64-bit counter updated by compare-and-swap loops. */
module MemoryBudget {

  import opened Words

  /** Addition of 64-bit unsigned integers. */
  function Plus64(a: nat, b: nat): nat {
    (a + b) % WORD64
  }

  lemma Plus64IsExact(a: nat, b: nat)
    requires a + b < WORD64
    ensures Plus64(a, b) == a + b
  {
  }

  /** The outcome of an undisturbed `try_reserve`: whether it succeeds, and the new
      counter. The sum is computed in 64 bits. A zero limit admits everything uncounted. */
  function TryReserve(used: nat, limit: nat, n: nat): (bool, nat) {
    if limit == 0 || n == 0 then (true, used)
    else if Plus64(used, n) > limit then (false, used)
    else (true, Plus64(used, n))
  }

  /** The outcome of an undisturbed `release`, which stops at zero. */
  function Release(used: nat, n: nat): nat {
    if used > n then used - n else 0
  }

  /** `try_reserve` is exact for every counter value up to the limit if and only if limit and
      request together fit in 64 bits; a larger request wraps around and is admitted. */
  lemma ReserveIsExactIff(limit: nat, n: nat)
    requires 0 < limit < WORD64 && 0 < n < WORD64
    ensures (forall used: nat :: used <= limit ==>
               TryReserve(used, limit, n) == if used + n > limit then (false, used) else (true, used + n))
       <==> limit + n < WORD64
  {
    if limit + n >= WORD64 {
      assert Plus64(limit, n) == limit + n - WORD64;
      assert TryReserve(limit, limit, n).0;
    }
  }

  /** A full budget of one byte admits a request that wraps, and forgets its byte. */
  lemma WrappingRequestIsAdmitted()
    ensures TryReserve(1, 1, WORD64 - 1) == (true, 0)
  {
  }

  /** The budget object. A weak compare-and-swap may fail for no reason; `hiccups` says how
      often it does so before it succeeds. */
  class Budget {
    var used: nat
    var limit: nat

    constructor (limit: nat)
      ensures used == 0 && this.limit == limit
    {
      used, this.limit := 0, limit;
    }

    method Reserve(n: nat, hiccups: nat) returns (ok: bool)
      requires used < WORD64 && n < WORD64
      modifies this`used
      ensures (ok, used) == TryReserve(old(used), limit, n)
    {
      if limit == 0 || n == 0 {
        return true;
      }
      var current, left: nat := used, hiccups;
      while true
        invariant current == used == old(used) && left <= hiccups
        decreases left
      {
        var sum := Plus64(current, n);
        if sum > limit {
          return false;
        }
        if left == 0 {
          used := sum;
          return true;
        }
        current, left := used, left - 1;
      }
    }

    method GiveBack(n: nat, hiccups: nat)
      modifies this`used
      ensures used == Release(old(used), n)
    {
      if n == 0 {
        return;
      }
      var current, left: nat := used, hiccups;
      while true
        invariant current == used == old(used) && left <= hiccups
        decreases left
      {
        var next := if current > n then current - n else 0;
        if left == 0 {
          used := next;
          return;
        }
        current, left := used, left - 1;
      }
    }
  }
}
