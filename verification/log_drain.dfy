/** The hand-off of log lines from producers to thread-pool workers: push, claim the pending
    flag, post a drain task; a drain clears the flag first and then pops until empty. Steps
    interleave freely; the atomics are read as sequentially consistent. */
module LogDrain {
  import opened Collections

  type Line(==, 00, !new)

  const MAX_QUEUE_SIZE: nat := 10000

  /** A thread inside `Logger::log`: away, between push and flag, or about to post. */
  datatype Producer = Away | Pushed | Posting

  datatype Task = Drain | Other

  /** A pool thread: resting, running an unrelated task, about to clear the flag, in the drain
      loop, or writing the line it popped. */
  datatype Worker = Resting | Busy | Starting | Draining | Writing(line: Line)

  /** `accepted`, `popped` and `written` record the lines that entered the queue, left it and
      reached the file, in order. */
  datatype State = State(
    queue: seq<Line>,
    pending: bool,
    tasks: seq<Task>,
    producers: seq<Producer>,
    workers: seq<Worker>,
    accepted: seq<Line>,
    popped: seq<Line>,
    written: seq<Line>
  )

  datatype Action =
    | Log(who: nat, line: Line)
    | Claim(who: nat)
    | Post(who: nat)
    | PostOther
    | Take(who: nat)
    | Finish(who: nat)
    | Start(who: nat)
    | Pop(who: nat)
    | Write(who: nat)

  /** The actions that bring work from outside. */
  predicate IsInput(a: Action) {
    a.Log? || a.PostOther?
  }

  predicate Enabled(s: State, a: Action) {
    match a
    case Log(i, _) => i < |s.producers| && s.producers[i].Away?
    case Claim(i) => i < |s.producers| && s.producers[i].Pushed?
    case Post(i) => i < |s.producers| && s.producers[i].Posting?
    case PostOther => true
    case Take(j) => j < |s.workers| && s.workers[j].Resting? && s.tasks != []
    case Finish(j) => j < |s.workers| && s.workers[j].Busy?
    case Start(j) => j < |s.workers| && s.workers[j].Starting?
    case Pop(j) => j < |s.workers| && s.workers[j].Draining?
    case Write(j) => j < |s.workers| && s.workers[j].Writing?
  }

  function Act(s: State, a: Action): State
    requires Enabled(s, a)
  {
    match a
    case Log(i, line) =>
      if |s.queue| >= MAX_QUEUE_SIZE then s
      else s.(queue := s.queue + [line], accepted := s.accepted + [line], producers := s.producers[i := Pushed])
    case Claim(i) =>
      if s.pending then s.(producers := s.producers[i := Away])
      else s.(pending := true, producers := s.producers[i := Posting])
    case Post(i) => s.(tasks := s.tasks + [Drain], producers := s.producers[i := Away])
    case PostOther => s.(tasks := s.tasks + [Other])
    case Take(j) => s.(tasks := s.tasks[1..], workers := s.workers[j := if s.tasks[0].Drain? then Starting else Busy])
    case Finish(j) => s.(workers := s.workers[j := Resting])
    case Start(j) => s.(pending := false, workers := s.workers[j := Draining])
    case Pop(j) =>
      if s.queue == [] then s.(workers := s.workers[j := Resting])
      else s.(queue := s.queue[1..], popped := s.popped + [s.queue[0]], workers := s.workers[j := Writing(s.queue[0])])
    case Write(j) => s.(written := s.written + [s.workers[j].line], workers := s.workers[j := Draining])
  }

  /** `s` reaches `t` by the actions, each of them enabled. */
  ghost predicate Reaches(s: State, actions: seq<Action>, t: State)
    decreases |actions|
  {
    if actions == [] then s == t
    else Enabled(s, actions[0]) && Reaches(Act(s, actions[0]), actions[1..], t)
  }

  ghost predicate Fresh(s: State) {
    && s.queue == [] && !s.pending && s.tasks == []
    && s.accepted == [] && s.popped == [] && s.written == []
    && (forall i :: 0 <= i < |s.producers| ==> s.producers[i].Away?)
    && (forall j :: 0 <= j < |s.workers| ==> s.workers[j].Resting?)
  }

  // ---------------------------------------------------------------- the invariant

  function IsPushed(p: Producer): int { if p.Pushed? then 1 else 0 }
  function IsPosting(p: Producer): int { if p.Posting? then 1 else 0 }
  function IsDrain(t: Task): int { if t.Drain? then 1 else 0 }
  function IsStarting(w: Worker): int { if w.Starting? then 1 else 0 }
  function InLoop(w: Worker): int { if w.Draining? || w.Writing? then 1 else 0 }

  /** Drains that are posted, about to be posted, or taken but not started. */
  ghost function Outstanding(s: State): int {
    Sum(s.producers, IsPosting) + Sum(s.tasks, IsDrain) + Sum(s.workers, IsStarting)
  }

  ghost function LineOf(w: Worker): multiset<Line> {
    if w.Writing? then multiset{w.line} else multiset{}
  }

  /** The lines that workers have popped and not yet written. */
  ghost function InHand(ws: seq<Worker>): multiset<Line> {
    if ws == [] then multiset{} else InHand(ws[1..]) + LineOf(ws[0])
  }

  /** The flag stands for exactly one outstanding drain; a waiting line has a producer before
      its claim, a set flag, or a worker in the loop; lines are popped once and in order; and
      popped lines are in hand or written. */
  ghost predicate Inv(s: State) {
    && Outstanding(s) == (if s.pending then 1 else 0)
    && (s.queue != [] ==> s.pending || Sum(s.producers, IsPushed) > 0 || Sum(s.workers, InLoop) > 0)
    && s.accepted == s.popped + s.queue
    && multiset(s.popped) == multiset(s.written) + InHand(s.workers)
    && |s.queue| <= MAX_QUEUE_SIZE
  }

  lemma {:induction false} InHandUpdate(ws: seq<Worker>, j: nat, w: Worker)
    requires j < |ws|
    ensures InHand(ws[j := w]) + LineOf(ws[j]) == InHand(ws) + LineOf(w)
  {
    hide LineOf;
    if j == 0 {
      assert ws[0 := w][1..] == ws[1..];
      MultisetSwap(InHand(ws[1..]), LineOf(w), LineOf(ws[0]));
    } else {
      assert ws[j := w][1..] == ws[1..][j - 1 := w];
      InHandUpdate(ws[1..], j - 1, w);
      MultisetSwap(InHand(ws[1..][j - 1 := w]), LineOf(ws[0]), LineOf(ws[j]));
      MultisetSwap(InHand(ws[1..]), LineOf(ws[0]), LineOf(w));
    }
  }

  lemma MultisetSwap<T>(a: multiset<T>, b: multiset<T>, c: multiset<T>)
    ensures a + b + c == a + c + b
  {
  }

  lemma {:induction false} InHandEmpty(ws: seq<Worker>)
    requires forall j :: 0 <= j < |ws| ==> !ws[j].Writing?
    ensures InHand(ws) == multiset{}
  {
    if ws != [] {
      InHandEmpty(ws[1..]);
    }
  }

  /** A worker's step changes the sums only by its own part. */
  lemma WorkerMoves(ws: seq<Worker>, j: nat, w: Worker)
    requires j < |ws|
    ensures Sum(ws[j := w], IsStarting) == Sum(ws, IsStarting) - IsStarting(ws[j]) + IsStarting(w)
    ensures Sum(ws[j := w], InLoop) == Sum(ws, InLoop) - InLoop(ws[j]) + InLoop(w)
  {
    SumUpdate(ws, j, w, IsStarting);
    SumUpdate(ws, j, w, InLoop);
  }

  lemma ProducerMoves(ps: seq<Producer>, i: nat, p: Producer)
    requires i < |ps|
    ensures Sum(ps[i := p], IsPushed) == Sum(ps, IsPushed) - IsPushed(ps[i]) + IsPushed(p)
    ensures Sum(ps[i := p], IsPosting) == Sum(ps, IsPosting) - IsPosting(ps[i]) + IsPosting(p)
  {
    SumUpdate(ps, i, p, IsPushed);
    SumUpdate(ps, i, p, IsPosting);
  }

  lemma SumsAreNatural(s: State)
    ensures Sum(s.producers, IsPosting) >= 0 && Sum(s.producers, IsPushed) >= 0
    ensures Sum(s.tasks, IsDrain) >= 0
    ensures Sum(s.workers, IsStarting) >= 0 && Sum(s.workers, InLoop) >= 0
  {
    SumNonNegative(s.producers, IsPosting);
    SumNonNegative(s.producers, IsPushed);
    SumNonNegative(s.tasks, IsDrain);
    SumNonNegative(s.workers, IsStarting);
    SumNonNegative(s.workers, InLoop);
  }

  lemma TaskPosted(ts: seq<Task>, t: Task)
    ensures Sum(ts + [t], IsDrain) == Sum(ts, IsDrain) + IsDrain(t)
  {
    SumConcat(ts, [t], IsDrain);
    SumOne(t, IsDrain);
  }

  lemma ProducerActKeepsInv(s: State, a: Action)
    requires Inv(s) && Enabled(s, a) && (a.Log? || a.Claim? || a.Post? || a.PostOther?)
    ensures Inv(Act(s, a))
  {
    var t := Act(s, a);
    SumsAreNatural(s);
    if !a.PostOther? {
      ProducerMoves(s.producers, a.who, t.producers[a.who]);
      assert s.producers[a.who := s.producers[a.who]] == s.producers;
    }
    if a.Post? || a.PostOther? {
      TaskPosted(s.tasks, if a.Post? then Drain else Other);
    }
    hide Sum;
    SumsAreNatural(t);
    if a.Log? && |s.queue| < MAX_QUEUE_SIZE {
      assert s.popped + (s.queue + [a.line]) == (s.popped + s.queue) + [a.line];
    }
  }

  /** The parts of the invariant that count drains and watch the queue. */
  lemma WorkerActKeepsFlag(s: State, a: Action)
    requires Inv(s) && Enabled(s, a) && (a.Take? || a.Finish? || a.Start? || a.Pop? || a.Write?)
    ensures var t := Act(s, a);
      && Outstanding(t) == (if t.pending then 1 else 0)
      && (t.queue != [] ==> t.pending || Sum(t.producers, IsPushed) > 0 || Sum(t.workers, InLoop) > 0)
  {
    var t := Act(s, a);
    WorkerMoves(s.workers, a.who, t.workers[a.who]);
    assert t.workers == s.workers[a.who := t.workers[a.who]];
    if a.Take? {
      assert Sum(s.tasks, IsDrain) == IsDrain(s.tasks[0]) + Sum(s.tasks[1..], IsDrain);
    }
    hide Sum, InHand;
    SumsAreNatural(s);
    SumsAreNatural(t);
  }

  /** The parts of the invariant about the lines themselves. */
  lemma WorkerActKeepsLines(s: State, a: Action)
    requires Inv(s) && Enabled(s, a) && (a.Take? || a.Finish? || a.Start? || a.Pop? || a.Write?)
    ensures var t := Act(s, a);
      && t.accepted == t.popped + t.queue
      && multiset(t.popped) == multiset(t.written) + InHand(t.workers)
  {
    var t := Act(s, a);
    LinesMove(s, a);
    hide Outstanding, InHand, Sum, Act, LineOf;
    InHandUpdate(s.workers, a.who, t.workers[a.who]);
    var before, after := LineOf(s.workers[a.who]), LineOf(t.workers[a.who]);
    Balance(multiset(s.popped), multiset(s.written), InHand(s.workers), InHand(t.workers), before, after);
  }

  lemma LinesMove(s: State, a: Action)
    requires Enabled(s, a) && (a.Take? || a.Finish? || a.Start? || a.Pop? || a.Write?)
    ensures var t := Act(s, a);
      && a.who < |s.workers| && |t.workers| == |s.workers|
      && t.workers == s.workers[a.who := t.workers[a.who]]
      && t.popped + t.queue == s.popped + s.queue && t.accepted == s.accepted
      && multiset(t.popped) == multiset(s.popped) + LineOf(t.workers[a.who])
      && multiset(t.written) == multiset(s.written) + LineOf(s.workers[a.who])
  {
    if a.Pop? && s.queue != [] {
      assert s.popped + s.queue == s.popped + [s.queue[0]] + s.queue[1..];
    }
  }

  /** Taking one line in hand and putting another one down keeps the books. */
  lemma Balance<T>(popped: multiset<T>, written: multiset<T>, hand: multiset<T>, hand': multiset<T>,
      before: multiset<T>, after: multiset<T>)
    requires popped == written + hand && hand' + before == hand + after
    ensures popped + after == written + before + hand'
  {
    assert popped + after == written + (hand + after);
    assert written + (hand' + before) == written + before + hand';
  }

  lemma WorkerActKeepsInv(s: State, a: Action)
    requires Inv(s) && Enabled(s, a) && (a.Take? || a.Finish? || a.Start? || a.Pop? || a.Write?)
    ensures Inv(Act(s, a))
  {
    hide Outstanding, InHand, Sum;
    WorkerActKeepsFlag(s, a);
    WorkerActKeepsLines(s, a);
    assert |Act(s, a).queue| <= |s.queue|;
    hide Act;
  }

  lemma ActKeepsInv(s: State, a: Action)
    requires Inv(s) && Enabled(s, a)
    ensures Inv(Act(s, a))
  {
    hide Inv, Act;
    if a.Log? || a.Claim? || a.Post? || a.PostOther? {
      ProducerActKeepsInv(s, a);
    } else {
      WorkerActKeepsInv(s, a);
    }
  }

  lemma {:induction false} ReachableIsInOrder(s: State, actions: seq<Action>, t: State)
    requires Inv(s) && Reaches(s, actions, t)
    ensures Inv(t)
    decreases |actions|
  {
    hide Inv, Act;
    if actions != [] {
      ActKeepsInv(s, actions[0]);
      ReachableIsInOrder(Act(s, actions[0]), actions[1..], t);
    }
  }

  lemma FreshIsInOrder(s: State)
    requires Fresh(s)
    ensures Inv(s)
  {
    SumZero(s.producers, IsPosting);
    SumZero(s.producers, IsPushed);
    SumZero(s.workers, IsStarting);
    InHandEmpty(s.workers);
  }

  // ---------------------------------------------------------------- the main theorems

  /** Nobody is inside `log`, no task waits, and every worker rests. */
  ghost predicate Quiescent(s: State) {
    && (forall i :: 0 <= i < |s.producers| ==> s.producers[i].Away?)
    && s.tasks == []
    && (forall j :: 0 <= j < |s.workers| ==> s.workers[j].Resting?)
  }

  /** In every interleaving: at most one drain is outstanding, and exactly one if the flag is
      set; a waiting line is never abandoned; lines leave the queue once and in order. */
  lemma DrainNeverStrandsALine(start: State, actions: seq<Action>, s: State)
    requires Fresh(start) && Reaches(start, actions, s)
    ensures Outstanding(s) == (if s.pending then 1 else 0)
    ensures s.queue != [] ==>
      || s.pending
      || (exists i :: 0 <= i < |s.producers| && s.producers[i].Pushed?)
      || (exists j :: 0 <= j < |s.workers| && (s.workers[j].Draining? || s.workers[j].Writing?))
    ensures s.accepted == s.popped + s.queue
  {
    FreshIsInOrder(start);
    ReachableIsInOrder(start, actions, s);
    hide Reaches, Outstanding;
    if Sum(s.producers, IsPushed) > 0 {
      var i := SumPositive(s.producers, IsPushed);
      assert s.producers[i].Pushed?;
    }
    if Sum(s.workers, InLoop) > 0 {
      var j := SumPositive(s.workers, InLoop);
      assert s.workers[j].Draining? || s.workers[j].Writing?;
    }
  }

  /** When everything has come to rest, every accepted line has been written exactly once. */
  lemma QuiescenceIsComplete(start: State, actions: seq<Action>, s: State)
    requires Fresh(start) && Reaches(start, actions, s) && Quiescent(s)
    ensures s.queue == [] && !s.pending
    ensures s.popped == s.accepted
    ensures multiset(s.written) == multiset(s.accepted)
  {
    FreshIsInOrder(start);
    ReachableIsInOrder(start, actions, s);
    hide Reaches;
    SumZero(s.producers, IsPosting);
    SumZero(s.producers, IsPushed);
    SumZero(s.workers, IsStarting);
    SumZero(s.workers, InLoop);
    InHandEmpty(s.workers);
    assert Sum(s.tasks, IsDrain) == 0;
  }

  /** A line is dropped exactly when ten thousand are waiting; otherwise it is accepted, behind all
      others. */
  lemma LogMeans(s: State, i: nat, line: Line)
    requires i < |s.producers| && s.producers[i].Away?
    ensures var t := Act(s, Log(i, line));
      if |s.queue| >= 10000 then t == s
      else t.queue == s.queue + [line] && t.accepted == s.accepted + [line]
  {
  }

  // ---------------------------------------------------------------- progress

  function ProducerWork(p: Producer): int {
    match p case Away => 0 case Posting => 4 case Pushed => 5
  }

  function TaskWork(t: Task): int {
    match t case Drain => 3 case Other => 2
  }

  function WorkerWork(w: Worker): int {
    match w case Resting => 0 case Busy => 1 case Draining => 1 case Starting => 2 case Writing(_) => 2
  }

  /** How much is left to do before everything is at rest. */
  ghost function Work(s: State): int {
    2 * |s.queue| + Sum(s.producers, ProducerWork) + Sum(s.tasks, TaskWork) + Sum(s.workers, WorkerWork)
  }

  lemma WorkIsNatural(s: State)
    ensures Work(s) >= 0
  {
    SumNonNegative(s.producers, ProducerWork);
    SumNonNegative(s.tasks, TaskWork);
    SumNonNegative(s.workers, WorkerWork);
  }

  /** Every action except new input does some of the work. */
  lemma ActDoesWork(s: State, a: Action)
    requires Enabled(s, a) && !IsInput(a)
    ensures Work(Act(s, a)) < Work(s)
  {
    var t := Act(s, a);
    if a.Claim? || a.Post? {
      SumUpdate(s.producers, a.who, t.producers[a.who], ProducerWork);
    } else {
      SumUpdate(s.workers, a.who, t.workers[a.who], WorkerWork);
      assert t.workers == s.workers[a.who := t.workers[a.who]];
    }
    if a.Post? {
      SumConcat(s.tasks, [Drain], TaskWork);
      SumOne(Drain, TaskWork);
    }
    if a.Take? {
      assert Sum(s.tasks, TaskWork) == TaskWork(s.tasks[0]) + Sum(s.tasks[1..], TaskWork);
    }
    hide Sum;
  }

  /** Unless everything is at rest, somebody can move: the protocol does not deadlock. */
  lemma SomebodyCanMove(s: State) returns (a: Action)
    requires |s.workers| > 0 && !Quiescent(s)
    ensures Enabled(s, a) && !IsInput(a)
  {
    if i :| 0 <= i < |s.producers| && !s.producers[i].Away? {
      a := if s.producers[i].Pushed? then Claim(i) else Post(i);
    } else if j :| 0 <= j < |s.workers| && !s.workers[j].Resting? {
      a := if s.workers[j].Busy? then Finish(j)
           else if s.workers[j].Starting? then Start(j)
           else if s.workers[j].Draining? then Pop(j)
           else Write(j);
    } else {
      a := Take(0);
    }
  }

  /** From every reachable state, if no new input arrives, the workers come to rest after at
      most `Work` actions with every accepted line written. */
  lemma {:induction false} DrainCompletes(s: State) returns (actions: seq<Action>, t: State)
    requires |s.workers| > 0
    ensures Reaches(s, actions, t) && Quiescent(t)
    ensures |actions| <= Work(s)
    ensures forall a :: a in actions ==> !IsInput(a)
    ensures t.accepted == s.accepted
    decreases Work(s)
  {
    WorkIsNatural(s);
    if Quiescent(s) {
      actions, t := [], s;
    } else {
      var a := SomebodyCanMove(s);
      ActDoesWork(s, a);
      var s' := Act(s, a);
      WorkIsNatural(s');
      assert |s'.workers| == |s.workers| && s'.accepted == s.accepted;
      hide Act, Work, Quiescent;
      var rest, last := DrainCompletes(s');
      actions, t := [a] + rest, last;
      assert actions[1..] == rest;
    }
  }

  /** Hence every line that was ever accepted can still be written, and nothing else will be. */
  lemma EveryLineGetsWritten(start: State, actions: seq<Action>, s: State) returns (more: seq<Action>, t: State)
    requires Fresh(start) && Reaches(start, actions, s) && |s.workers| > 0
    ensures Reaches(s, more, t) && (forall a :: a in more ==> !IsInput(a))
    ensures t.queue == [] && multiset(t.written) == multiset(s.accepted)
  {
    hide Act, Quiescent;
    more, t := DrainCompletes(s);
    ReachesTogether(start, actions, s, more, t);
    QuiescenceIsComplete(start, actions + more, t);
  }

  /** No run without new input is longer than the work at its start. */
  lemma {:induction false} EveryRunIsShort(s: State, actions: seq<Action>, t: State)
    requires Reaches(s, actions, t)
    requires forall a :: a in actions ==> !IsInput(a)
    ensures |actions| <= Work(s)
    decreases |actions|
  {
    WorkIsNatural(s);
    hide Work, Act;
    if actions != [] {
      ActDoesWork(s, actions[0]);
      EveryRunIsShort(Act(s, actions[0]), actions[1..], t);
    }
  }

  /** Nobody can do anything more without new input. */
  ghost predicate Finished(s: State) {
    forall a :: !IsInput(a) ==> !Enabled(s, a)
  }

  lemma {:induction false} InputFreeKeeps(s: State, actions: seq<Action>, t: State)
    requires Reaches(s, actions, t) && forall a :: a in actions ==> !IsInput(a)
    ensures t.accepted == s.accepted && |t.workers| == |s.workers|
    decreases |actions|
  {
    if actions != [] {
      assert actions[0] in actions && !IsInput(actions[0]);
      assert Act(s, actions[0]).accepted == s.accepted && |Act(s, actions[0]).workers| == |s.workers|;
      hide Act;
      InputFreeKeeps(Act(s, actions[0]), actions[1..], t);
    }
  }

  /** Every run without new input, however it is scheduled, ends after at most `Work` steps; and
      when it has gone on until nobody can move, exactly the accepted lines have been written. */
  lemma EveryFinishedRunWroteEverything(start: State, actions: seq<Action>, s: State, more: seq<Action>, t: State)
    requires Fresh(start) && Reaches(start, actions, s) && |s.workers| > 0
    requires Reaches(s, more, t) && (forall a :: a in more ==> !IsInput(a)) && Finished(t)
    ensures |more| <= Work(s)
    ensures t.queue == [] && !t.pending && t.popped == s.accepted
    ensures multiset(t.written) == multiset(s.accepted)
  {
    hide Act, Work, Reaches;
    EveryRunIsShort(s, more, t);
    InputFreeKeeps(s, more, t);
    if !Quiescent(t) {
      var a := SomebodyCanMove(t);
    }
    ReachesTogether(start, actions, s, more, t);
    QuiescenceIsComplete(start, actions + more, t);
  }

  // ---------------------------------------------------------------- composing runs

  lemma ReachesFirst(s: State, a: Action, rest: seq<Action>, t: State)
    requires Enabled(s, a) && Reaches(Act(s, a), rest, t)
    ensures Reaches(s, [a] + rest, t)
  {
    assert ([a] + rest)[1..] == rest;
  }

  lemma {:induction false} ReachesTogether(s: State, a: seq<Action>, t: State, b: seq<Action>, u: State)
    requires Reaches(s, a, t) && Reaches(t, b, u)
    ensures Reaches(s, a + b, u)
    decreases |a|
  {
    hide Act;
    if a == [] {
      assert a + b == b;
    } else {
      assert (a + b)[1..] == a[1..] + b;
      ReachesTogether(Act(s, a[0]), a[1..], t, b, u);
    }
  }
}
