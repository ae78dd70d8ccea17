/** The connection rate limiter, which forgets old accepts, against one that forgets nothing. */
module RateLimiter {
  import opened Collections

  /** Clock readings, in nanoseconds. */
  type Time = int

  const SECOND: nat := 1_000_000_000

  datatype Config = Config(enabled: bool, limit: nat, windowSeconds: nat) {
    function Window(): nat { windowSeconds * SECOND }
  }

  /** The checks that the limiter waves through. */
  predicate Exempt(config: Option<Config>, ip: string) {
    config.None? || !config.value.enabled || ip == "" || ip == "unknown"
  }

  /** The times not before `cutoff`, in order. */
  function Recent(times: seq<Time>, cutoff: Time): seq<Time> {
    if times == [] then []
    else Recent(times[..|times| - 1], cutoff) + if times[|times| - 1] < cutoff then [] else [times[|times| - 1]]
  }

  // ---------------------------------------------------------------- the limiter

  type Tracker = map<string, seq<Time>>

  function TimesOf(tracker: Tracker, ip: string): seq<Time> {
    if ip in tracker then tracker[ip] else []
  }

  /** `check_rate_limit`: the decision, and the tracker afterwards. */
  function Check(tracker: Tracker, config: Option<Config>, ip: string, now: Time): (bool, Tracker) {
    if Exempt(config, ip) then (true, tracker)
    else
      var recent := Recent(TimesOf(tracker, ip), now - config.value.Window());
      if |recent| >= config.value.limit then (false, tracker[ip := recent])
      else (true, tracker[ip := recent + [now]])
  }

  /** `cleanup_rate_limit_entries` */
  function Tidy(tracker: Tracker, config: Option<Config>, now: Time): Tracker {
    if config.None? || !config.value.enabled then tracker
    else TidyBefore(tracker, now - config.value.Window())
  }

  function TidyBefore(tracker: Tracker, cutoff: Time): Tracker {
    map ip | ip in tracker && Recent(tracker[ip], cutoff) != [] :: Recent(tracker[ip], cutoff)
  }

  class Limiter {
    var tracker: Tracker

    constructor ()
      ensures tracker == map[]
    {
      tracker := map[];
    }

    method CheckRateLimit(config: Option<Config>, ip: string, now: Time) returns (ok: bool)
      modifies this
      ensures (ok, tracker) == Check(old(tracker), config, ip, now)
    {
      if config.None? || !config.value.enabled || ip == "" || ip == "unknown" {
        return true;
      }
      if ip !in tracker {
        tracker := tracker[ip := []];
      }
      var times := DropOld(tracker[ip], now - config.value.Window());
      tracker := tracker[ip := times];
      assert tracker == old(tracker)[ip := times];
      if |times| >= config.value.limit {
        return false;
      }
      tracker := tracker[ip := times + [now]];
      assert tracker == old(tracker)[ip := times + [now]];
      return true;
    }

    method CleanupEntries(config: Option<Config>, now: Time)
      modifies this
      ensures tracker == Tidy(old(tracker), config, now)
    {
      if config.None? || !config.value.enabled {
        return;
      }
      var cutoff := now - config.value.Window();
      ghost var start := tracker;
      var todo := tracker.Keys;
      while todo != {}
        invariant todo <= tracker.Keys <= start.Keys
        invariant forall ip :: ip in todo ==> tracker[ip] == start[ip]
        invariant forall ip :: ip in start && ip !in todo ==>
          if Recent(start[ip], cutoff) == [] then ip !in tracker
          else ip in tracker && tracker[ip] == Recent(start[ip], cutoff)
        decreases todo
      {
        hide Recent;
        var ip :| ip in todo;
        var times := DropOld(tracker[ip], cutoff);
        if times == [] {
          tracker := tracker - {ip};
        } else {
          tracker := tracker[ip := times];
        }
        todo := todo - {ip};
      }
    }
  }

  /** The erase-remove over one entry. */
  method DropOld(times: seq<Time>, cutoff: Time) returns (kept: seq<Time>)
    ensures kept == Recent(times, cutoff)
  {
    kept := [];
    for i := 0 to |times|
      invariant kept == Recent(times[..i], cutoff)
    {
      assert times[..i + 1][..i] == times[..i];
      if !(times[i] < cutoff) {
        kept := kept + [times[i]];
      }
    }
    assert times[..|times|] == times;
  }

  // ---------------------------------------------------------------- the reference

  /** An accepted connection. */
  datatype Accept = Accept(ip: string, time: Time)

  /** When this address was accepted, over the whole log. */
  function Accepts(log: seq<Accept>, ip: string): seq<Time> {
    if log == [] then []
    else Accepts(log[..|log| - 1], ip) + if log[|log| - 1].ip == ip then [log[|log| - 1].time] else []
  }

  /** The limiter that keeps every accept. */
  function FullCheck(log: seq<Accept>, config: Option<Config>, ip: string, now: Time): (bool, seq<Accept>) {
    if Exempt(config, ip) then (true, log)
    else if |Recent(Accepts(log, ip), now - config.value.Window())| >= config.value.limit then (false, log)
    else (true, log + [Accept(ip, now)])
  }

  // ---------------------------------------------------------------- runs

  datatype Event = Connect(ip: string, now: Time) | Cleanup(now: Time)

  function Decisions(tracker: Tracker, config: Option<Config>, events: seq<Event>): seq<bool>
    decreases |events|
  {
    if events == [] then []
    else
      match events[0]
      case Connect(ip, now) =>
        var (ok, tracker') := Check(tracker, config, ip, now);
        [ok] + Decisions(tracker', config, events[1..])
      case Cleanup(now) => Decisions(Tidy(tracker, config, now), config, events[1..])
  }

  function FullDecisions(log: seq<Accept>, config: Option<Config>, events: seq<Event>): seq<bool>
    decreases |events|
  {
    if events == [] then []
    else
      match events[0]
      case Connect(ip, now) =>
        var (ok, log') := FullCheck(log, config, ip, now);
        [ok] + FullDecisions(log', config, events[1..])
      case Cleanup(_) => FullDecisions(log, config, events[1..])
  }

  /** The accepts of limited addresses, as a decision adds to them. */
  function Logged(log: seq<Accept>, config: Option<Config>, ip: string, now: Time, ok: bool): seq<Accept> {
    if ok && !Exempt(config, ip) then log + [Accept(ip, now)] else log
  }

  /** The accepts of limited addresses after the events, as the pruning limiter decides. */
  function LogAfter(tracker: Tracker, log: seq<Accept>, config: Option<Config>, events: seq<Event>): seq<Accept>
    decreases |events|
  {
    if events == [] then log
    else
      match events[0]
      case Connect(ip, now) =>
        var (ok, tracker') := Check(tracker, config, ip, now);
        LogAfter(tracker', Logged(log, config, ip, now, ok), config, events[1..])
      case Cleanup(now) => LogAfter(Tidy(tracker, config, now), log, config, events[1..])
  }

  ghost predicate Monotone(from: Time, events: seq<Event>)
    decreases |events|
  {
    events != [] ==> from <= events[0].now && Monotone(events[0].now, events[1..])
  }

  // ---------------------------------------------------------------- refinement

  lemma {:induction false} RecentAgain(times: seq<Time>, early: Time, late: Time)
    requires early <= late
    ensures Recent(Recent(times, early), late) == Recent(times, late)
  {
    if times != [] {
      RecentAgain(times[..|times| - 1], early, late);
      RecentSnoc(Recent(times[..|times| - 1], early), times[|times| - 1], late);
      assert Recent(times[..|times| - 1], early) + [] == Recent(times[..|times| - 1], early);
    }
  }

  lemma RecentSnoc(times: seq<Time>, t: Time, cutoff: Time)
    ensures Recent(times + [t], cutoff) == Recent(times, cutoff) + if t < cutoff then [] else [t]
  {
    assert (times + [t])[..|times|] == times;
  }

  /** At this cutoff the tracker and the log agree on every address. */
  ghost predicate Agree(tracker: Tracker, log: seq<Accept>, cutoff: Time) {
    forall ip :: Recent(TimesOf(tracker, ip), cutoff) == Recent(Accepts(log, ip), cutoff)
  }

  lemma AgreeLater(tracker: Tracker, log: seq<Accept>, early: Time, late: Time)
    requires early <= late && Agree(tracker, log, early)
    ensures Agree(tracker, log, late)
  {
    hide Recent, Accepts;
    forall ip
      ensures Recent(TimesOf(tracker, ip), late) == Recent(Accepts(log, ip), late)
    {
      RecentAgain(TimesOf(tracker, ip), early, late);
      RecentAgain(Accepts(log, ip), early, late);
    }
  }

  lemma AcceptsSnoc(log: seq<Accept>, a: Accept, ip: string)
    ensures Accepts(log + [a], ip) == Accepts(log, ip) + if a.ip == ip then [a.time] else []
  {
    assert (log + [a])[..|log|] == log;
  }

  lemma CheckAgrees(tracker: Tracker, log: seq<Accept>, config: Option<Config>, ip: string, now: Time)
    requires config.Some? && Agree(tracker, log, now - config.value.Window())
    ensures var (ok, tracker') := Check(tracker, config, ip, now);
      var (ok', log') := FullCheck(log, config, ip, now);
      ok == ok' && Agree(tracker', log', now - config.value.Window())
  {
    hide Recent, Accepts;
    var cutoff := now - config.value.Window();
    var (ok, tracker') := Check(tracker, config, ip, now);
    var (ok', log') := FullCheck(log, config, ip, now);
    assert Recent(TimesOf(tracker, ip), cutoff) == Recent(Accepts(log, ip), cutoff);
    if !Exempt(config, ip) {
      var recent := Recent(TimesOf(tracker, ip), cutoff);
      forall other
        ensures Recent(TimesOf(tracker', other), cutoff) == Recent(Accepts(log', other), cutoff)
      {
        RecentAgain(TimesOf(tracker, ip), cutoff, cutoff);
        AcceptsSnoc(log, Accept(ip, now), other);
        RecentSnoc(recent, now, cutoff);
        RecentSnoc(Accepts(log, ip), now, cutoff);
        assert Recent(TimesOf(tracker, other), cutoff) == Recent(Accepts(log, other), cutoff);
        assert Accepts(log, other) + [] == Accepts(log, other);
      }
    }
  }

  lemma TidyAgrees(tracker: Tracker, log: seq<Accept>, config: Option<Config>, now: Time)
    requires config.Some? && Agree(tracker, log, now - config.value.Window())
    ensures Agree(Tidy(tracker, config, now), log, now - config.value.Window())
  {
    hide Recent, Accepts;
    var cutoff := now - config.value.Window();
    assert Recent([], cutoff) == [] by { RecentOfNothing(cutoff); }
    forall ip
      ensures Recent(TimesOf(Tidy(tracker, config, now), ip), cutoff) == Recent(Accepts(log, ip), cutoff)
    {
      RecentAgain(TimesOf(tracker, ip), cutoff, cutoff);
      assert Recent(TimesOf(tracker, ip), cutoff) == Recent(Accepts(log, ip), cutoff);
    }
  }

  lemma RecentOfNothing(cutoff: Time)
    ensures Recent([], cutoff) == []
  {
  }

  lemma {:induction false} DecisionsAgree(tracker: Tracker, log: seq<Accept>, config: Option<Config>,
      from: Time, events: seq<Event>)
    requires config.Some? ==> Agree(tracker, log, from - config.value.Window())
    requires Monotone(from, events)
    ensures Decisions(tracker, config, events) == FullDecisions(log, config, events)
    decreases |events|
  {
    hide Agree, Check, FullCheck, Tidy;
    if events != [] {
      var now := events[0].now;
      if config.Some? {
        AgreeLater(tracker, log, from - config.value.Window(), now - config.value.Window());
      }
      match events[0]
      case Connect(ip, _) =>
        var (ok, tracker') := Check(tracker, config, ip, now);
        var (ok', log') := FullCheck(log, config, ip, now);
        if config.Some? {
          CheckAgrees(tracker, log, config, ip, now);
        } else {
          NoConfig(tracker, log, ip, now);
        }
        DecisionsAgree(tracker', log', config, now, events[1..]);
      case Cleanup(_) =>
        if config.Some? {
          TidyAgrees(tracker, log, config, now);
        }
        DecisionsAgree(Tidy(tracker, config, now), log, config, now, events[1..]);
    }
  }

  lemma NoConfig(tracker: Tracker, log: seq<Accept>, ip: string, now: Time)
    ensures Check(tracker, None, ip, now) == (true, tracker) && FullCheck(log, None, ip, now) == (true, log)
  {
  }

  /** Forgetting is invisible: from its start the limiter decides every check as one that keeps
      every accepted time for ever, whenever it cleans up. */
  lemma PruningIsInvisible(config: Option<Config>, from: Time, events: seq<Event>)
    requires Monotone(from, events)
    ensures Decisions(map[], config, events) == FullDecisions([], config, events)
  {
    DecisionsAgree(map[], [], config, from, events);
  }

  // ---------------------------------------------------------------- the limit holds

  /** The times in the closed interval of one window's length that starts at `a`. */
  function During(times: seq<Time>, a: Time, window: nat): seq<Time> {
    if times == [] then []
    else
      var t := times[|times| - 1];
      During(times[..|times| - 1], a, window) + if a <= t <= a + window then [t] else []
  }

  lemma {:induction false} DuringIsRecent(times: seq<Time>, a: Time, window: nat, now: Time)
    requires now - window <= a
    ensures |During(times, a, window)| <= |Recent(times, now - window)|
  {
    if times != [] {
      DuringIsRecent(times[..|times| - 1], a, window, now);
    }
  }

  lemma DuringSnoc(times: seq<Time>, t: Time, a: Time, window: nat)
    ensures During(times + [t], a, window) == During(times, a, window) + if a <= t <= a + window then [t] else []
  {
    assert (times + [t])[..|times|] == times;
  }

  ghost predicate Limited(log: seq<Accept>, config: Config, ip: string) {
    forall a :: |During(Accepts(log, ip), a, config.Window())| <= config.limit
  }

  /** One check, made where the tracker and the log agree, keeps every interval within the limit. */
  lemma CheckIsLimited(tracker: Tracker, log: seq<Accept>, config: Config, ip: string, now: Time, other: string)
    requires Agree(tracker, log, now - config.Window()) && Limited(log, config, other) && !Exempt(Some(config), other)
    ensures var (ok, _) := Check(tracker, Some(config), ip, now);
      Limited(Logged(log, Some(config), ip, now, ok), config, other)
  {
    hide Recent, Accepts, During;
    var (ok, _) := Check(tracker, Some(config), ip, now);
    var window := config.Window();
    if ok && !Exempt(Some(config), ip) {
      AcceptsSnoc(log, Accept(ip, now), other);
      if ip == other {
        forall a
          ensures |During(Accepts(log + [Accept(ip, now)], other), a, window)| <= config.limit
        {
          DuringSnoc(Accepts(log, other), now, a, window);
          assert |During(Accepts(log, other), a, window)| <= config.limit;
          assert Recent(TimesOf(tracker, ip), now - window) == Recent(Accepts(log, ip), now - window);
          if a <= now <= a + window {
            DuringIsRecent(Accepts(log, other), a, window, now);
          }
        }
      } else {
        assert Accepts(log, other) + [] == Accepts(log, other);
      }
    }
  }

  lemma {:induction false} LogIsLimited(tracker: Tracker, log: seq<Accept>, config: Config, from: Time,
      events: seq<Event>, ip: string)
    requires Monotone(from, events) && Agree(tracker, log, from - config.Window())
    requires Limited(log, config, ip) && !Exempt(Some(config), ip)
    ensures Limited(LogAfter(tracker, log, Some(config), events), config, ip)
    decreases |events|
  {
    hide Agree, Check, FullCheck, Tidy, Limited;
    if events != [] {
      var now := events[0].now;
      AgreeLater(tracker, log, from - config.Window(), now - config.Window());
      match events[0]
      case Connect(who, _) =>
        var (ok, tracker') := Check(tracker, Some(config), who, now);
        CheckIsLimited(tracker, log, config, who, now, ip);
        CheckAgrees(tracker, log, Some(config), who, now);
        LoggedIs(log, Some(config), who, now);
        LogIsLimited(tracker', Logged(log, Some(config), who, now, ok), config, now, events[1..], ip);
      case Cleanup(_) =>
        TidyAgrees(tracker, log, Some(config), now);
        LogIsLimited(Tidy(tracker, Some(config), now), log, config, now, events[1..], ip);
    }
  }

  lemma LoggedIs(log: seq<Accept>, config: Option<Config>, ip: string, now: Time)
    ensures var (ok, log') := FullCheck(log, config, ip, now); log' == Logged(log, config, ip, now, ok)
  {
  }

  /** Over any run from the start, no closed interval of one window's length holds more accepts
      from one limited address than the configuration allows. */
  lemma WindowIsLimited(config: Config, from: Time, events: seq<Event>, ip: string, a: Time)
    requires Monotone(from, events) && !Exempt(Some(config), ip)
    ensures |During(Accepts(LogAfter(map[], [], Some(config), events), ip), a, config.Window())| <= config.limit
  {
    hide LogAfter, Monotone;
    LogIsLimited(map[], [], config, from, events, ip);
  }

  // ---------------------------------------------------------------- what is decided

  ghost function TrackerAfter(tracker: Tracker, config: Option<Config>, events: seq<Event>): Tracker
    decreases |events|
  {
    if events == [] then tracker
    else
      match events[0]
      case Connect(ip, now) => TrackerAfter(Check(tracker, config, ip, now).1, config, events[1..])
      case Cleanup(now) => TrackerAfter(Tidy(tracker, config, now), config, events[1..])
  }

  ghost function Last(from: Time, events: seq<Event>): Time {
    if events == [] then from else events[|events| - 1].now
  }

  /** How many of the times are not before `cutoff`. */
  ghost function CountSince(times: seq<Time>, cutoff: Time): nat {
    if times == [] then 0 else (if times[0] >= cutoff then 1 else 0) + CountSince(times[1..], cutoff)
  }

  lemma {:induction false} CountSinceSnoc(times: seq<Time>, t: Time, cutoff: Time)
    ensures CountSince(times + [t], cutoff) == CountSince(times, cutoff) + if t >= cutoff then 1 else 0
    decreases |times|
  {
    if times == [] {
      assert times + [t] == [t] && [t][1..] == [];
    } else {
      assert (times + [t])[1..] == times[1..] + [t];
      CountSinceSnoc(times[1..], t, cutoff);
    }
  }

  lemma {:induction false} RecentCounts(times: seq<Time>, cutoff: Time)
    ensures |Recent(times, cutoff)| == CountSince(times, cutoff)
  {
    if times != [] {
      var front, t := times[..|times| - 1], times[|times| - 1];
      RecentCounts(front, cutoff);
      CountSinceSnoc(front, t, cutoff);
      assert front + [t] == times;
    }
  }

  lemma {:induction false} AgreeAfter(tracker: Tracker, log: seq<Accept>, config: Config, from: Time,
      events: seq<Event>)
    requires Monotone(from, events) && Agree(tracker, log, from - config.Window())
    ensures Agree(TrackerAfter(tracker, Some(config), events), LogAfter(tracker, log, Some(config), events),
                  Last(from, events) - config.Window())
    decreases |events|
  {
    hide Agree, Check, FullCheck, Tidy;
    if events != [] {
      var now := events[0].now;
      AgreeLater(tracker, log, from - config.Window(), now - config.Window());
      match events[0]
      case Connect(who, _) =>
        var (ok, tracker') := Check(tracker, Some(config), who, now);
        CheckAgrees(tracker, log, Some(config), who, now);
        LoggedIs(log, Some(config), who, now);
        AgreeAfter(tracker', Logged(log, Some(config), who, now, ok), config, now, events[1..]);
      case Cleanup(_) =>
        TidyAgrees(tracker, log, Some(config), now);
        AgreeAfter(Tidy(tracker, Some(config), now), log, config, now, events[1..]);
    }
  }

  /** After any run, a connection from a known address is accepted exactly when fewer than the
      limit have been accepted from it in the window before it, its first instant included. */
  lemma DecisionMeans(config: Config, from: Time, events: seq<Event>, ip: string, now: Time)
    requires Monotone(from, events) && Last(from, events) <= now
    requires config.enabled && ip != "" && ip != "unknown"
    ensures Check(TrackerAfter(map[], Some(config), events), Some(config), ip, now).0 <==>
      CountSince(Accepts(LogAfter(map[], [], Some(config), events), ip), now - config.windowSeconds * 1_000_000_000)
      < config.limit
  {
    hide *;
    NothingAgrees(from - config.Window());
    AgreeAfter(map[], [], config, from, events);
    var tracker, log := TrackerAfter(map[], Some(config), events), LogAfter(map[], [], Some(config), events);
    AgreeLater(tracker, log, Last(from, events) - config.Window(), now - config.Window());
    CheckCounts(tracker, log, config, ip, now);
  }

  lemma NothingAgrees(cutoff: Time)
    ensures Agree(map[], [], cutoff)
  {
  }

  lemma CheckCounts(tracker: Tracker, log: seq<Accept>, config: Config, ip: string, now: Time)
    requires Agree(tracker, log, now - config.Window()) && config.enabled && ip != "" && ip != "unknown"
    ensures Check(tracker, Some(config), ip, now).0 <==>
      CountSince(Accepts(log, ip), now - config.windowSeconds * 1_000_000_000) < config.limit
  {
    hide Recent, CountSince, Accepts;
    var cutoff := now - config.Window();
    assert Recent(TimesOf(tracker, ip), cutoff) == Recent(Accepts(log, ip), cutoff);
    RecentCounts(Accepts(log, ip), cutoff);
  }

  /** Without a configuration, with the limiter off, or from an unknown address, everything is
      accepted and nothing is remembered. */
  lemma OthersAreAccepted(tracker: Tracker, config: Option<Config>, ip: string, now: Time)
    requires config.None? || !config.value.enabled || ip == "" || ip == "unknown"
    ensures Check(tracker, config, ip, now) == (true, tracker)
  {
  }

  /** A cleanup keeps exactly the addresses that have been accepted in the window, with those times. */
  lemma TidyMeans(tracker: Tracker, config: Config, now: Time, ip: string)
    requires config.enabled
    ensures var t, cutoff := Tidy(tracker, Some(config), now), now - config.windowSeconds * 1_000_000_000;
      && (ip in t <==> ip in tracker && CountSince(tracker[ip], cutoff) > 0)
      && (ip in t ==> t[ip] == Recent(tracker[ip], cutoff))
  {
    if ip in tracker {
      RecentCounts(tracker[ip], now - config.Window());
    }
    hide Recent, CountSince;
  }
}
