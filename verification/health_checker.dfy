/** The health checker's counters against the history of probes. */
module HealthChecker {
  import opened Backends
  import opened Words

  datatype Thresholds = Thresholds(failure: nat, success: nat) {
    predicate Valid() { failure < WORD32 && success < WORD32 }

    /** A threshold of zero acts as one. */
    function Failures(): nat { if failure == 0 then 1 else failure }
    function Successes(): nat { if success == 0 then 1 else success }
  }

  /** What the checker knows of one backend. */
  datatype Monitor = Monitor(health: Health, failures: nat, successes: nat)

  const STARTED := Monitor(Healthy, 0, 0)

  function Increment(n: nat): nat { (n + 1) % WORD32 }

  /** `update_backend_state` */
  function Probe(m: Monitor, ok: bool, t: Thresholds): Monitor {
    if ok then
      var successes := Increment(m.successes);
      if m.health.Unhealthy? && successes >= t.success then Monitor(Healthy, 0, 0)
      else Monitor(m.health, 0, successes)
    else
      var failures := Increment(m.failures);
      if m.health.Healthy? && failures >= t.failure then Monitor(Unhealthy, 0, 0)
      else Monitor(m.health, failures, 0)
  }

  /** One backend after a history of probes. */
  function After(m: Monitor, history: seq<bool>, t: Thresholds): Monitor
    decreases |history|
  {
    if history == [] then m else Probe(After(m, history[..|history| - 1], t), history[|history| - 1], t)
  }

  function ProbeOne(ms: map<NodeId, Monitor>, b: NodeId, ok: bool, t: Thresholds): map<NodeId, Monitor>
    requires b in ms
  {
    ms[b := Probe(ms[b], ok, t)]
  }

  /** Probes of all backends, in whatever order they finish. */
  function ProbeAll(ms: map<NodeId, Monitor>, probes: seq<(NodeId, bool)>, t: Thresholds): (r: map<NodeId, Monitor>)
    requires forall i :: 0 <= i < |probes| ==> probes[i].0 in ms
    ensures r.Keys == ms.Keys
    decreases |probes|
  {
    if probes == [] then ms
    else
      var last := probes[|probes| - 1];
      ProbeOne(ProbeAll(ms, probes[..|probes| - 1], t), last.0, last.1, t)
  }

  // ---------------------------------------------------------------- the class

  class Checker {
    const thresholds: Thresholds
    var health: map<NodeId, Health>
    var failures: map<NodeId, nat>
    var successes: map<NodeId, nat>

    function Of(b: NodeId): Monitor
      reads this
      requires b in health
    {
      Monitor(health[b], if b in failures then failures[b] else 0, if b in successes then successes[b] else 0)
    }

    ghost function View(): (ms: map<NodeId, Monitor>)
      reads this
      ensures ms.Keys == health.Keys
    {
      map b | b in health :: Of(b)
    }

    constructor (thresholds: Thresholds, backends: set<NodeId>)
      ensures this.thresholds == thresholds && View() == map b | b in backends :: STARTED
    {
      this.thresholds := thresholds;
      health := map b | b in backends :: Healthy;
      failures, successes := map[], map[];
    }

    method UpdateBackendState(b: NodeId, ok: bool)
      requires b in health
      modifies this
      ensures View() == ProbeOne(old(View()), b, ok, thresholds)
    {
      if ok {
        Succeed(b);
      } else {
        Fail(b);
      }
    }

    method Succeed(b: NodeId)
      requires b in health
      modifies this
      ensures View() == ProbeOne(old(View()), b, true, thresholds)
    {
      failures := failures[b := 0];
      successes := successes[b := Increment(if b in successes then successes[b] else 0)];
      if health[b].Unhealthy? {
        if successes[b] >= thresholds.success {
          health := health[b := Healthy];
          successes := successes[b := 0];
        }
      }
    }

    method Fail(b: NodeId)
      requires b in health
      modifies this
      ensures View() == ProbeOne(old(View()), b, false, thresholds)
    {
      successes := successes[b := 0];
      failures := failures[b := Increment(if b in failures then failures[b] else 0)];
      if health[b].Healthy? {
        if failures[b] >= thresholds.failure {
          health := health[b := Unhealthy];
          failures := failures[b := 0];
        }
      }
    }
  }

  /** The probes of one backend among those of all. */
  function ProbesOf(probes: seq<(NodeId, bool)>, b: NodeId): seq<bool> {
    if probes == [] then []
    else
      var last := probes[|probes| - 1];
      ProbesOf(probes[..|probes| - 1], b) + if last.0 == b then [last.1] else []
  }

  lemma AfterSnoc(m: Monitor, history: seq<bool>, ok: bool, t: Thresholds)
    ensures After(m, history + [ok], t) == Probe(After(m, history, t), ok, t)
  {
    hide Probe;
    assert (history + [ok])[..|history|] == history;
  }

  // ---------------------------------------------------------------- the history specification

  /** The `n` probes before position `i` all had this result. */
  ghost predicate RunEnds(h: seq<bool>, i: nat, n: nat, ok: bool) {
    n <= i <= |h| && forall k :: i - n <= k < i ==> h[k] == ok
  }

  /** Some run of failures is not followed by a later run of successes. */
  ghost predicate Bad(h: seq<bool>, t: Thresholds) {
    exists i :: 0 <= i <= |h| && RunEnds(h, i, t.Failures(), false) && Unrecovered(h, i, t)
  }

  ghost predicate Unrecovered(h: seq<bool>, i: nat, t: Thresholds) {
    forall j :: i < j <= |h| ==> !RunEnds(h, j, t.Successes(), true)
  }

  /** How many of the last probes had this result. */
  function Trailing(h: seq<bool>, ok: bool): (n: nat)
    ensures n <= |h|
  {
    if h == [] || h[|h| - 1] != ok then 0 else 1 + Trailing(h[..|h| - 1], ok)
  }

  lemma {:induction false} TrailingIs(h: seq<bool>, n: nat, ok: bool)
    ensures RunEnds(h, |h|, n, ok) <==> n <= Trailing(h, ok)
  {
    if h != [] && n > 0 {
      var front := h[..|h| - 1];
      TrailingIs(front, n - 1, ok);
      if h[|h| - 1] == ok {
        assert RunEnds(h, |h|, n, ok) <==> RunEnds(front, |front|, n - 1, ok) by {
          if RunEnds(front, |front|, n - 1, ok) { assert forall k :: |h| - n <= k < |h| - 1 ==> h[k] == front[k]; }
          if RunEnds(h, |h|, n, ok) { assert forall k :: |h| - n <= k < |h| - 1 ==> h[k] == front[k]; }
        }
      }
    }
  }

  lemma RunsStay(h: seq<bool>, x: bool, i: nat, n: nat, ok: bool)
    requires i <= |h|
    ensures RunEnds(h + [x], i, n, ok) <==> RunEnds(h, i, n, ok)
  {
    assert forall k :: 0 <= k < i ==> (h + [x])[k] == h[k];
  }

  lemma TrailingSnoc(h: seq<bool>, x: bool, ok: bool)
    ensures Trailing(h + [x], ok) == if x == ok then Trailing(h, ok) + 1 else 0
  {
    assert (h + [x])[..|h|] == h;
  }

  /** A failure makes the history bad when it completes a run, and repairs nothing. */
  lemma BadAfterFailure(h: seq<bool>, t: Thresholds)
    ensures Bad(h + [false], t) <==> Bad(h, t) || Trailing(h, false) + 1 >= t.Failures()
  {
    hide RunEnds;
    var h', f, s := h + [false], t.Failures(), t.Successes();
    forall i, n, ok | 0 <= i <= |h| && 0 <= n
      ensures RunEnds(h', i, n, ok) <==> RunEnds(h, i, n, ok)
    {
      RunsStay(h, false, i, n, ok);
    }
    TrailingIs(h', f, false);
    TrailingIs(h', s, true);
    TrailingSnoc(h, false, false);
    TrailingSnoc(h, false, true);
    assert !RunEnds(h', |h'|, s, true);
    if Bad(h, t) {
      var i :| 0 <= i <= |h| && RunEnds(h, i, f, false) && Unrecovered(h, i, t);
      assert RunEnds(h', i, f, false) && Unrecovered(h', i, t);
    }
    if Trailing(h, false) + 1 >= f {
      assert RunEnds(h', |h'|, f, false) && Unrecovered(h', |h'|, t);
    }
    if Bad(h', t) {
      var i :| 0 <= i <= |h'| && RunEnds(h', i, f, false) && Unrecovered(h', i, t);
      if i <= |h| {
        assert RunEnds(h, i, f, false) && Unrecovered(h, i, t);
      }
    }
  }

  /** A success makes nothing bad, and repairs the history when it completes a run. */
  lemma BadAfterSuccess(h: seq<bool>, t: Thresholds)
    ensures Bad(h + [true], t) <==> Bad(h, t) && Trailing(h, true) + 1 < t.Successes()
  {
    hide RunEnds;
    var h', f, s := h + [true], t.Failures(), t.Successes();
    forall i, n, ok | 0 <= i <= |h| && 0 <= n
      ensures RunEnds(h', i, n, ok) <==> RunEnds(h, i, n, ok)
    {
      RunsStay(h, true, i, n, ok);
    }
    TrailingIs(h', f, false);
    TrailingIs(h', s, true);
    TrailingSnoc(h, true, false);
    TrailingSnoc(h, true, true);
    assert !RunEnds(h', |h'|, f, false);
    if Bad(h, t) && Trailing(h, true) + 1 < s {
      var i :| 0 <= i <= |h| && RunEnds(h, i, f, false) && Unrecovered(h, i, t);
      assert RunEnds(h', i, f, false) && Unrecovered(h', i, t);
    }
    if Bad(h', t) {
      var i :| 0 <= i <= |h'| && RunEnds(h', i, f, false) && Unrecovered(h', i, t);
      assert RunEnds(h, i, f, false) && Unrecovered(h, i, t);
      assert !RunEnds(h', |h'|, s, true);
    }
  }

  // ---------------------------------------------------------------- refinement

  /** The counter that matters in a state counts the trailing run, short of its threshold. */
  ghost predicate Tracks(m: Monitor, h: seq<bool>, t: Thresholds) {
    match m.health
    case Healthy => !Bad(h, t) && m.failures == Trailing(h, false) < t.Failures()
    case Unhealthy => Bad(h, t) && m.successes == Trailing(h, true) < t.Successes()
    case Draining => false
  }

  lemma ProbeTracks(m: Monitor, h: seq<bool>, ok: bool, t: Thresholds)
    requires t.Valid() && Tracks(m, h, t)
    ensures Tracks(Probe(m, ok, t), h + [ok], t)
  {
    hide Bad, Trailing;
    TrailingSnoc(h, ok, false);
    TrailingSnoc(h, ok, true);
    if ok {
      BadAfterSuccess(h, t);
    } else {
      BadAfterFailure(h, t);
    }
  }

  lemma {:induction false} HistoryTracks(h: seq<bool>, t: Thresholds)
    requires t.Valid()
    ensures Tracks(After(STARTED, h, t), h, t)
  {
    if h == [] {
      assert !Bad([], t);
    } else {
      var front := h[..|h| - 1];
      HistoryTracks(front, t);
      hide Tracks, Probe;
      ProbeTracks(After(STARTED, front, t), front, h[|h| - 1], t);
      assert front + [h[|h| - 1]] == h;
    }
  }

  /** A backend is unhealthy after its probes exactly when some run of failures is not followed
      by a later run of successes, and healthy otherwise. */
  lemma UnhealthyIffBad(h: seq<bool>, t: Thresholds)
    requires t.Valid()
    ensures After(STARTED, h, t).health == if Bad(h, t) then Unhealthy else Healthy
  {
    hide Bad, After;
    HistoryTracks(h, t);
  }

  /** Probes neither start nor end draining. */
  lemma {:induction false} DrainingIsLeftAlone(m: Monitor, h: seq<bool>, t: Thresholds)
    ensures After(m, h, t).health.Draining? <==> m.health.Draining?
  {
    if h != [] {
      DrainingIsLeftAlone(m, h[..|h| - 1], t);
    }
  }

  lemma {:induction false} EachBackendAlone(ms: map<NodeId, Monitor>, probes: seq<(NodeId, bool)>,
      t: Thresholds, b: NodeId)
    requires b in ms && forall i :: 0 <= i < |probes| ==> probes[i].0 in ms
    ensures ProbeAll(ms, probes, t)[b] == After(ms[b], ProbesOf(probes, b), t)
    decreases |probes|
  {
    hide Probe;
    if probes != [] {
      var front, last := probes[..|probes| - 1], probes[|probes| - 1];
      EachBackendAlone(ms, front, t, b);
      if last.0 == b {
        AfterSnoc(ms[b], ProbesOf(front, b), last.1, t);
      } else {
        assert ProbesOf(probes, b) == ProbesOf(front, b);
      }
    }
  }

  /** However the probes of different backends interleave, each backend's state is decided by its
      own history. */
  lemma HealthFollowsHistory(ms: map<NodeId, Monitor>, probes: seq<(NodeId, bool)>, t: Thresholds, b: NodeId)
    requires t.Valid() && b in ms && ms[b] == STARTED && forall i :: 0 <= i < |probes| ==> probes[i].0 in ms
    ensures ProbeAll(ms, probes, t)[b].health == if Bad(ProbesOf(probes, b), t) then Unhealthy else Healthy
  {
    hide Bad, After, ProbesOf, ProbeAll;
    EachBackendAlone(ms, probes, t, b);
    UnhealthyIffBad(ProbesOf(probes, b), t);
  }
}
