/** Any number of threads using the budget at once, one load or compare-and-swap at a time. */
module BudgetThreads {
  import opened Collections
  import opened Words
  import opened MemoryBudget

  /** Where a thread is inside `try_reserve(n)` or `release(n)`, with the value it last loaded. */
  datatype Place =
    | Outside
    | BeforeReserve(n: nat)
    | Reserving(n: nat, seen: nat)
    | BeforeRelease(n: nat)
    | Releasing(n: nat, seen: nat)

  /** `reserved` and `released` total the thread's successful calls. */
  datatype Thread = Thread(place: Place, reserved: nat, released: nat)

  datatype State = State(used: nat, threads: seq<Thread>)

  datatype Action =
    | CallReserve(who: nat, n: nat)
    | CallRelease(who: nat, n: nat)
    | Load(who: nat)
    | Swap(who: nat, spurious: bool)

  function Held(t: Thread): int {
    t.reserved - t.released
  }

  /** The loop head of `try_reserve`: give up, or aim a compare-and-swap at the loaded value. */
  function Aim(n: nat, seen: nat, limit: nat): Place {
    if Plus64(seen, n) > limit then Outside else Reserving(n, seen)
  }

  /** Threads call with 64-bit sizes whose sum with the limit does not wrap, and release only
      what they hold. */
  predicate Enabled(limit: nat, s: State, a: Action) {
    && a.who < |s.threads|
    && var t := s.threads[a.who];
       match a
       case CallReserve(_, n) => t.place.Outside? && limit + n < WORD64
       case CallRelease(_, n) => t.place.Outside? && n <= Held(t)
       case Load(_) => t.place.BeforeReserve? || t.place.BeforeRelease?
       case Swap(_, _) => t.place.Reserving? || t.place.Releasing?
  }

  /** One action of one thread; an action that is not enabled has no effect. */
  function Act(limit: nat, s: State, a: Action): State {
    if !Enabled(limit, s, a) then s
    else
      var t := s.threads[a.who];
      match a
      case CallReserve(_, n) => Move(s, a.who, if n == 0 then Outside else BeforeReserve(n))
      case CallRelease(_, n) => Move(s, a.who, if n == 0 then Outside else BeforeRelease(n))
      case Load(_) =>
        Move(s, a.who, if t.place.BeforeReserve? then Aim(t.place.n, s.used, limit) else Releasing(t.place.n, s.used))
      case Swap(_, spurious) =>
        if spurious || s.used != t.place.seen then
          Move(s, a.who, if t.place.Reserving? then Aim(t.place.n, s.used, limit) else Releasing(t.place.n, s.used))
        else if t.place.Reserving? then
          State(Plus64(t.place.seen, t.place.n),
                s.threads[a.who := t.(place := Outside, reserved := t.reserved + t.place.n)])
        else
          State(Release(t.place.seen, t.place.n),
                s.threads[a.who := t.(place := Outside, released := t.released + t.place.n)])
  }

  function Move(s: State, who: nat, place: Place): State
    requires who < |s.threads|
  {
    s.(threads := s.threads[who := s.threads[who].(place := place)])
  }

  function Run(limit: nat, s: State, actions: seq<Action>): State
    decreases |actions|
  {
    if actions == [] then s else Run(limit, Act(limit, s, actions[0]), actions[1..])
  }

  ghost predicate ThreadOk(limit: nat, t: Thread) {
    && 0 <= Held(t)
    && match t.place
       case Outside => true
       case BeforeReserve(n) => limit + n < WORD64
       case Reserving(n, seen) => limit + n < WORD64 && seen + n <= limit
       case BeforeRelease(n) => n <= Held(t)
       case Releasing(n, _) => n <= Held(t)
  }

  /** The counter is the sum of what the threads hold and within the limit. */
  ghost predicate Inv(limit: nat, s: State) {
    && s.used <= limit < WORD64
    && (forall i :: 0 <= i < |s.threads| ==> ThreadOk(limit, s.threads[i]))
    && s.used == Sum(s.threads, Held)
  }

  lemma ActKeepsInv(limit: nat, s: State, a: Action)
    requires Inv(limit, s)
    ensures Inv(limit, Act(limit, s, a))
  {
    if Enabled(limit, s, a) {
      var t := Act(limit, s, a);
      ActKeepsThread(limit, s, a);
      SumUpdate(s.threads, a.who, t.threads[a.who], Held);
      hide Act, ThreadOk, Sum;
    }
  }

  /** The acting thread stays in order, and the counter moves with what it holds. */
  lemma ActKeepsThread(limit: nat, s: State, a: Action)
    requires Inv(limit, s) && Enabled(limit, s, a)
    ensures var t := Act(limit, s, a);
      && t.threads == s.threads[a.who := t.threads[a.who]]
      && ThreadOk(limit, t.threads[a.who])
      && t.used - s.used == Held(t.threads[a.who]) - Held(s.threads[a.who])
      && t.used <= limit
  {
    SumBounds(s.threads, a.who, Held);
    hide Sum, Plus64;
    var t := s.threads[a.who];
    assert ThreadOk(limit, t);
    if t.place.BeforeReserve? || t.place.Reserving? {
      Plus64IsExact(s.used, t.place.n);
    }
  }

  lemma {:induction false} RunKeepsInv(limit: nat, s: State, actions: seq<Action>)
    requires Inv(limit, s)
    ensures Inv(limit, Run(limit, s, actions))
    decreases |actions|
  {
    if actions != [] {
      ActKeepsInv(limit, s, actions[0]);
      RunKeepsInv(limit, Act(limit, s, actions[0]), actions[1..]);
    }
  }

  ghost predicate Fresh(s: State) {
    s.used == 0 && forall i :: 0 <= i < |s.threads| ==> s.threads[i] == Thread(Outside, 0, 0)
  }

  function Reserved(t: Thread): int { t.reserved }

  function Released(t: Thread): int { t.released }

  lemma {:induction false} HeldSplits(ts: seq<Thread>)
    ensures Sum(ts, Held) == Sum(ts, Reserved) - Sum(ts, Released)
  {
    if ts != [] {
      HeldSplits(ts[1..]);
    }
  }

  /** However the threads interleave, the used bytes never exceed the limit and always equal
      all successful reservations minus all releases. */
  lemma BudgetIsExact(limit: nat, start: State, actions: seq<Action>)
    requires Fresh(start) && 0 < limit < WORD64
    ensures var s := Run(limit, start, actions);
      && s.used <= limit
      && s.used == Sum(s.threads, Reserved) - Sum(s.threads, Released)
  {
    hide Run;
    SumZero(start.threads, Held);
    RunKeepsInv(limit, start, actions);
    HeldSplits(Run(limit, start, actions).threads);
  }

  /** A release that is about to swap successfully never hits the clamp. */
  lemma ReleaseNeverClamps(limit: nat, start: State, actions: seq<Action>, who: nat)
    requires Fresh(start) && 0 < limit < WORD64
    requires var s := Run(limit, start, actions);
      who < |s.threads| && s.threads[who].place.Releasing? && s.threads[who].place.seen == s.used
    ensures var s := Run(limit, start, actions);
      Release(s.used, s.threads[who].place.n) == s.used - s.threads[who].place.n
  {
    hide Run, Sum;
    var s := Run(limit, start, actions);
    SumZero(start.threads, Held);
    RunKeepsInv(limit, start, actions);
    SumBounds(s.threads, who, Held);
  }

  /** A reservation is refused exactly when, at the moment of the load, it does not fit. */
  lemma RefusedIffFull(limit: nat, s: State, who: nat)
    requires s.used <= limit && who < |s.threads| && s.threads[who].place.BeforeReserve?
    requires limit + s.threads[who].place.n < WORD64
    ensures var n, t := s.threads[who].place.n, Act(limit, s, Load(who));
      && t.used == s.used
      && t.threads == s.threads[who := t.threads[who]]
      && t.threads[who] == s.threads[who].(place := if s.used + n > limit then Outside else Reserving(n, s.used))
  {
  }

  /** A swap that meets the value it expects moves the counter by exactly the size of the call. */
  lemma SwapCounts(limit: nat, s: State, who: nat)
    requires who < |s.threads| && s.used <= limit
    requires var p := s.threads[who].place;
      (p.Reserving? && limit + p.n < WORD64) || (p.Releasing? && p.n <= s.used)
    requires s.threads[who].place.seen == s.used
    ensures var p, t := s.threads[who].place, Act(limit, s, Swap(who, false));
      && t.used == (if p.Reserving? then s.used + p.n else s.used - p.n)
      && t.threads[who].place.Outside?
      && t.threads[who].reserved == s.threads[who].reserved + (if p.Reserving? then p.n else 0)
      && t.threads[who].released == s.threads[who].released + (if p.Releasing? then p.n else 0)
  {
  }
}
