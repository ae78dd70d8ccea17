/** When drains overlap, and what that does to the order of the lines in the file. */
module LogOrder {
  import opened LogDrain

  predicate Looping(w: Worker) {
    w.Draining? || w.Writing?
  }

  /** Two workers are in the drain loop at once. */
  ghost predicate Overlaps(s: State) {
    exists i, j :: 0 <= i < j < |s.workers| && Looping(s.workers[i]) && Looping(s.workers[j])
  }

  // ---------------------------------------------------------------- one worker

  /** The line that a pool of one worker has popped and not yet written. */
  function Held(ws: seq<Worker>): seq<Line> {
    if |ws| == 1 && ws[0].Writing? then [ws[0].line] else []
  }

  ghost predicate Alone(s: State) {
    |s.workers| <= 1 && s.popped == s.written + Held(s.workers)
  }

  lemma ActKeepsAlone(s: State, a: Action)
    requires Alone(s) && Enabled(s, a)
    ensures Alone(Act(s, a))
  {
  }

  lemma {:induction false} ReachableIsAlone(s: State, actions: seq<Action>, t: State)
    requires Alone(s) && Reaches(s, actions, t)
    ensures Alone(t)
    decreases |actions|
  {
    hide Alone, Act;
    if actions != [] {
      ActKeepsAlone(s, actions[0]);
      ReachableIsAlone(Act(s, actions[0]), actions[1..], t);
    }
  }

  /** With at most one worker, in every reachable state, the accepted lines are the written ones,
      then the one in hand, then the queue: lines reach the file in the order of acceptance. */
  lemma OneWorkerWritesInOrder(start: State, actions: seq<Action>, s: State)
    requires Fresh(start) && |start.workers| <= 1 && Reaches(start, actions, s)
    ensures s.accepted == s.written + Held(s.workers) + s.queue
    ensures !Overlaps(s)
  {
    ReachableIsAlone(start, actions, s);
    DrainNeverStrandsALine(start, actions, s);
  }

  // ---------------------------------------------------------------- no producer

  /** Nothing has ever been logged. */
  ghost predicate Silent(s: State) {
    && s.producers == [] && s.accepted == [] && s.written == []
    && (forall i :: 0 <= i < |s.tasks| ==> s.tasks[i].Other?)
    && (forall j :: 0 <= j < |s.workers| ==> s.workers[j].Resting? || s.workers[j].Busy?)
  }

  lemma ActKeepsSilent(s: State, a: Action)
    requires Silent(s) && Enabled(s, a)
    ensures Silent(Act(s, a))
  {
  }

  lemma {:induction false} ReachableIsSilent(s: State, actions: seq<Action>, t: State)
    requires Silent(s) && Reaches(s, actions, t)
    ensures Silent(t)
    decreases |actions|
  {
    hide Silent, Act;
    if actions != [] {
      ActKeepsSilent(s, actions[0]);
      ReachableIsSilent(Act(s, actions[0]), actions[1..], t);
    }
  }

  lemma BothLoop(s: State, i: nat, j: nat)
    requires i < j < |s.workers| && Looping(s.workers[i]) && Looping(s.workers[j])
    ensures Overlaps(s)
  {
  }

  lemma SilentIsApart(s: State)
    requires Silent(s)
    ensures !Overlaps(s)
  {
  }

  // ---------------------------------------------------------------- two workers

  /** One producer logs a line and hands it to a resting worker, which pops it. */
  lemma OneDrain(s: State, i: nat, j: nat, line: Line) returns (actions: seq<Action>, t: State)
    requires i < |s.producers| && j < |s.workers| && s.producers[i].Away? && s.workers[j].Resting?
    requires s.queue == [] && !s.pending && s.tasks == []
    ensures Reaches(s, actions, t)
    ensures t == s.(workers := s.workers[j := Writing(line)],
                    accepted := s.accepted + [line], popped := s.popped + [line])
  {
    var s3 := LogAndPost(s, i, line);
    var s4 := Act(s3, Take(j));
    var s5 := Act(s4, Start(j));
    t := Act(s5, Pop(j));
    assert t.workers == s.workers[j := Writing(line)];
    hide Act;
    assert Reaches(t, [], t);
    ReachesFirst(s5, Pop(j), [], t);
    ReachesFirst(s4, Start(j), [Pop(j)], t);
    ReachesFirst(s3, Take(j), [Start(j), Pop(j)], t);
    var a, b := [Log(i, line), Claim(i), Post(i)], [Take(j), Start(j), Pop(j)];
    ReachesTogether(s, a, s3, b, t);
    actions := a + b;
  }

  lemma LogAndPost(s: State, i: nat, line: Line) returns (t: State)
    requires i < |s.producers| && s.producers[i].Away? && s.queue == [] && !s.pending && s.tasks == []
    ensures Reaches(s, [Log(i, line), Claim(i), Post(i)], t)
    ensures t == s.(queue := [line], pending := true, tasks := [Drain], accepted := s.accepted + [line])
  {
    var s1 := Act(s, Log(i, line));
    var s2 := Act(s1, Claim(i));
    t := Act(s2, Post(i));
    assert t.producers == s.producers;
    hide Act;
    assert Reaches(t, [], t);
    ReachesFirst(s2, Post(i), [], t);
    ReachesFirst(s1, Claim(i), [Post(i)], t);
    ReachesFirst(s, Log(i, line), [Claim(i), Post(i)], t);
  }

  /** With a producer and two workers, two drains can be in their loops at once, each with a
      line in hand. */
  lemma TwoDrainsCanOverlap(start: State, first: Line, second: Line) returns (actions: seq<Action>, s: State)
    requires Fresh(start) && |start.producers| >= 1 && |start.workers| >= 2
    ensures Reaches(start, actions, s)
    ensures s.workers == start.workers[0 := Writing(first)][1 := Writing(second)]
    ensures s.accepted == [first, second] && s.written == []
  {
    var a, s1 := OneDrain(start, 0, 0, first);
    var b, s2 := OneDrain(s1, 0, 1, second);
    ReachesTogether(start, a, s1, b, s2);
    return a + b, s2;
  }

  /** And the second line can reach the file first. */
  lemma LinesCanSwap(start: State, first: Line, second: Line) returns (actions: seq<Action>, s: State)
    requires Fresh(start) && |start.producers| >= 1 && |start.workers| >= 2
    ensures Reaches(start, actions, s)
    ensures s.accepted == [first, second] && s.written == [second, first]
  {
    var a, s2 := TwoDrainsCanOverlap(start, first, second);
    var s3 := Act(s2, Write(1));
    s := Act(s3, Write(0));
    assert s.written == [second, first];
    hide Act;
    assert Reaches(s, [], s);
    ReachesFirst(s3, Write(0), [], s);
    ReachesFirst(s2, Write(1), [Write(0)], s);
    ReachesTogether(start, a, s2, [Write(1), Write(0)], s);
    actions := a + [Write(1), Write(0)];
  }

  // ---------------------------------------------------------------- exactly when

  /** No two drains ever run at once exactly when the pool has at most one worker or nobody logs. */
  lemma DrainsNeverOverlapIff(start: State)
    requires Fresh(start)
    ensures (forall actions, s :: Reaches(start, actions, s) ==> !Overlaps(s))
       <==> |start.workers| <= 1 || |start.producers| == 0
  {
    hide Reaches, Overlaps, Fresh;
    if |start.workers| >= 2 && |start.producers| >= 1 {
      OverlapHappens(start);
    } else {
      forall actions, s | Reaches(start, actions, s)
        ensures !Overlaps(s)
      {
        NoOverlap(start, actions, s);
      }
    }
  }

  lemma OverlapHappens(start: State)
    requires Fresh(start) && |start.producers| >= 1 && |start.workers| >= 2
    ensures exists actions, s :: Reaches(start, actions, s) && Overlaps(s)
  {
    hide Reaches, Overlaps, Fresh;
    var line: Line := *;
    var actions, s := TwoDrainsCanOverlap(start, line, line);
    BothLoop(s, 0, 1);
  }

  lemma NoOverlap(start: State, actions: seq<Action>, s: State)
    requires Fresh(start) && Reaches(start, actions, s) && (|start.workers| <= 1 || |start.producers| == 0)
    ensures !Overlaps(s)
  {
    hide Reaches, Overlaps;
    if |start.workers| <= 1 {
      OneWorkerWritesInOrder(start, actions, s);
    } else {
      ReachableIsSilent(start, actions, s);
      SilentIsApart(s);
    }
  }

  /** Lines reach the file in the order of acceptance, in every run, under the same condition. */
  lemma WrittenInOrderIff(start: State, first: Line, second: Line)
    requires Fresh(start) && first != second
    ensures (forall actions, s :: Reaches(start, actions, s) ==> s.written <= s.accepted)
       <==> |start.workers| <= 1 || |start.producers| == 0
  {
    hide Reaches;
    if |start.workers| >= 2 && |start.producers| >= 1 {
      var actions, s := LinesCanSwap(start, first, second);
      assert s.written[0] != s.accepted[0];
    }
    forall actions, s | Reaches(start, actions, s) && (|start.workers| <= 1 || |start.producers| == 0)
      ensures s.written <= s.accepted
    {
      if |start.workers| <= 1 {
        OneWorkerWritesInOrder(start, actions, s);
      } else {
        ReachableIsSilent(start, actions, s);
      }
    }
  }
}
