/** Whole runs of the scheduler: every batch is legal, the run ends, and what holds when it has. */
module GraphRun {
  import opened Plan
  import opened Scheduler
  import opened Wrappers

  // ---------------------------------------------------------------- a batch is legal

  ghost predicate PhaseIs(g: Graph, s: State, waiting: set<nat>, working: set<nat>)
    requires Shape(g, s)
  {
    forall i: nat :: i < g.Size() ==>
      s.phase[i] == if i in waiting then Waiting else if i in working then Working else Idle
  }

  ghost predicate AllPar(g: Graph, nodes: set<nat>) {
    forall i: nat :: i in nodes ==> i < g.Size() && g.Par(i)
  }

  /** Outcomes only ever change to outcomes. */
  ghost predicate KeepsOutcomes(g: Graph, s: State, t: State)
    requires Shape(g, s) && Shape(g, t)
  {
    forall i :: 0 <= i < g.Size() && s.outcomes[i].Some? ==> t.outcomes[i].Some?
  }

  ghost predicate CanStart(g: Graph, s: State, b: seq<nat>)
    requires ValidGraph(g) && Shape(g, s)
  {
    forall x {:trigger b[x]} :: 0 <= x < |b| ==>
      && b[x] < g.Size() && s.attempts[b[x]] < g.nodes[b[x]].Cap()
      && forall k: nat :: g.Gate(k, b[x]) ==> s.outcomes[g.edges[k].from].Some?
  }

  ghost function ParOf(g: Graph, b: seq<nat>): set<nat>
    requires Below(b, g.Size())
  {
    set x | 0 <= x < |b| && g.Par(b[x]) :: b[x]
  }

  lemma BumpedSnoc(attempts: seq<nat>, b: seq<nat>, i: nat)
    requires i < |attempts| && i !in b
    ensures Bumped(attempts, b)[i] == attempts[i]
    ensures Bumped(attempts, b + [i]) == Bumped(attempts, b)[i := attempts[i] + 1]
  {
  }

  /** `ops` is legal from `s` and leaves the given nodes waiting and at work, `k` steps and the given
    attempts counted. */
  ghost predicate Reached(g: Graph, w: World, s: State, ops: seq<Op>, waiting: set<nat>, working: set<nat>,
                          k: nat, attempts: seq<nat>)
    requires ValidGraph(g) && Shape(g, s)
  {
    LegalAll(g, w, s, ops) &&
    var t := Play(g, w, s, ops);
    PhaseIs(g, t, waiting, working) && KeepsOutcomes(g, s, t) && t.steps == s.steps + k && t.attempts == attempts
  }

  lemma ReachNothing(g: Graph, w: World, s: State)
    requires ValidGraph(g) && Shape(g, s) && AllIdle(g, s)
    ensures Reached(g, w, s, StartOps(g, []), ParOf(g, []), {}, 0, Bumped(s.attempts, []))
  {
    assert Bumped(s.attempts, []) == s.attempts && ParOf(g, []) == {} && StartOps(g, []) == [];
  }

  lemma ReachStart(g: Graph, w: World, s: State, ops: seq<Op>, waiting: set<nat>, k: nat, attempts: seq<nat>, i: nat)
    requires ValidGraph(g) && Shape(g, s) && Reached(g, w, s, ops, waiting, {}, k, attempts)
    requires i < g.Size() && i !in waiting && CanStart(g, s, [i]) && attempts[i] == s.attempts[i]
    ensures Reached(g, w, s, ops + [Start(i)], if g.Par(i) then waiting + {i} else waiting,
                    if g.Par(i) then {} else {i}, k + 1, attempts[i := attempts[i] + 1])
  {
    assert [i][0] == i;
    LegalSnoc(g, w, s, ops, Start(i));
  }

  lemma ReachInlineDone(g: Graph, w: World, s: State, ops: seq<Op>, waiting: set<nat>, k: nat, attempts: seq<nat>, i: nat)
    requires ValidGraph(g) && Shape(g, s) && i < g.Size() && i !in waiting
    requires Reached(g, w, s, ops, waiting, {i}, k, attempts)
    ensures Reached(g, w, s, ops + [Done(i)], waiting, {}, k, attempts)
  {
    LegalSnoc(g, w, s, ops, Done(i));
  }

  lemma ReachRender(g: Graph, w: World, s: State, ops: seq<Op>, waiting: set<nat>, working: set<nat>,
                    k: nat, attempts: seq<nat>, i: nat)
    requires ValidGraph(g) && Shape(g, s) && Reached(g, w, s, ops, waiting, working, k, attempts)
    requires i < g.Size() && i in waiting
    ensures Reached(g, w, s, ops + [Render(i)], waiting - {i}, working + {i}, k, attempts)
  {
    LegalSnoc(g, w, s, ops, Render(i));
  }

  lemma ReachDone(g: Graph, w: World, s: State, ops: seq<Op>, waiting: set<nat>, working: set<nat>,
                  k: nat, attempts: seq<nat>, i: nat)
    requires ValidGraph(g) && Shape(g, s) && Reached(g, w, s, ops, waiting, working, k, attempts)
    requires AllPar(g, working) && i in working && waiting !! working
    ensures Reached(g, w, s, ops + [Done(i)], waiting, working - {i}, k, attempts)
  {
    LegalSnoc(g, w, s, ops, Done(i));
  }

  lemma StartSnoc(g: Graph, rest: seq<nat>, i: nat)
    requires Below(rest, g.Size()) && i < g.Size() && i !in rest
    ensures Below(rest + [i], g.Size()) && i !in ParOf(g, rest)
    ensures StartOps(g, rest + [i]) == StartOps(g, rest) + if g.Par(i) then [Start(i)] else [Start(i), Done(i)]
    ensures ParOf(g, rest + [i]) == if g.Par(i) then ParOf(g, rest) + {i} else ParOf(g, rest)
  {
    var b := rest + [i];
    assert b[..|rest|] == rest && b[|rest|] == i;
  }

  lemma StartOne(g: Graph, w: World, s: State, ops: seq<Op>, waiting: set<nat>, k: nat, attempts: seq<nat>, i: nat)
    requires ValidGraph(g) && Shape(g, s) && i < g.Size() && CanStart(g, s, [i]) && i !in waiting
    requires i < |attempts| && attempts[i] == s.attempts[i]
    requires Reached(g, w, s, ops, waiting, {}, k, attempts)
    ensures Reached(g, w, s, ops + if g.Par(i) then [Start(i)] else [Start(i), Done(i)],
                    if g.Par(i) then waiting + {i} else waiting, {}, k + 1, attempts[i := attempts[i] + 1])
  {
    hide Reached, CanStart;
    ReachStart(g, w, s, ops, waiting, k, attempts, i);
    if !g.Par(i) {
      ReachInlineDone(g, w, s, ops + [Start(i)], waiting, k + 1, attempts[i := attempts[i] + 1], i);
      assert ops + [Start(i)] + [Done(i)] == ops + [Start(i), Done(i)];
    }
  }

  lemma {:induction false} StartSegment(g: Graph, w: World, s: State, b: seq<nat>)
    requires ValidGraph(g) && Shape(g, s) && AllIdle(g, s) && Ascending(b)
    requires Below(b, g.Size()) && CanStart(g, s, b)
    ensures Reached(g, w, s, StartOps(g, b), ParOf(g, b), {}, |b|, Bumped(s.attempts, b))
    decreases |b|
  {
    hide Reached, AllIdle, StartOps, ParOf, Bumped;
    if b == [] {
      ReachNothing(g, w, s);
    } else {
      var rest, i := Split(b);
      StartSegment(g, w, s, rest);
      assert CanStart(g, s, [i]) by { assert [i][0] == b[|rest|]; }
      assert i !in rest;
      StartSnoc(g, rest, i);
      BumpedSnoc(s.attempts, rest, i);
      StartOne(g, w, s, StartOps(g, rest), ParOf(g, rest), |rest|, Bumped(s.attempts, rest), i);
    }
  }

  lemma Split(b: seq<nat>) returns (rest: seq<nat>, i: nat)
    requires b != [] && Ascending(b)
    ensures b == rest + [i] && rest == b[..|b| - 1] && i == b[|b| - 1]
    ensures Elements(b) == Elements(rest) + {i} && i !in Elements(rest) && Ascending(rest)
  {
    rest, i := b[..|b| - 1], b[|b| - 1];
    assert b == rest + [i];
  }

  lemma {:induction false} RenderSegment(g: Graph, w: World, s: State, pre: seq<Op>, b: seq<nat>,
                                         waiting: set<nat>, working: set<nat>, k: nat, attempts: seq<nat>)
    requires ValidGraph(g) && Shape(g, s) && Reached(g, w, s, pre, waiting, working, k, attempts)
    requires Ascending(b) && Below(b, g.Size()) && Elements(b) <= waiting
    ensures Reached(g, w, s, pre + RenderOps(b), waiting - Elements(b), working + Elements(b), k, attempts)
    decreases |b|
  {
    hide Reached;
    if b == [] {
      assert pre + RenderOps(b) == pre && waiting - Elements(b) == waiting && working + Elements(b) == working;
    } else {
      var rest, i := Split(b);
      RenderSegment(g, w, s, pre, rest, waiting, working, k, attempts);
      ReachRender(g, w, s, pre + RenderOps(rest), waiting - Elements(rest), working + Elements(rest), k, attempts, i);
      assert pre + RenderOps(b) == pre + RenderOps(rest) + [Render(i)];
      assert waiting - Elements(b) == waiting - Elements(rest) - {i};
      assert working + Elements(b) == working + Elements(rest) + {i};
    }
  }

  lemma LaunchOne(g: Graph, w: World, s: State, ops: seq<Op>, waiting: set<nat>, working: set<nat>,
                  k: nat, attempts: seq<nat>, i: nat)
    requires ValidGraph(g) && Shape(g, s) && Reached(g, w, s, ops, waiting, working, k, attempts)
    requires AllPar(g, waiting + working) && waiting !! working && i in waiting && i < |attempts|
    ensures w.starts(i, attempts[i]) ==> Reached(g, w, s, ops + [Render(i)], waiting - {i}, working + {i}, k, attempts)
    ensures !w.starts(i, attempts[i]) ==>
      Reached(g, w, s, ops + [Render(i), Done(i)], waiting - {i}, working, k, attempts)
  {
    hide Reached;
    ReachRender(g, w, s, ops, waiting, working, k, attempts, i);
    if !w.starts(i, attempts[i]) {
      ReachDone(g, w, s, ops + [Render(i)], waiting - {i}, working + {i}, k, attempts, i);
      assert working + {i} - {i} == working;
      assert ops + [Render(i)] + [Done(i)] == ops + [Render(i), Done(i)];
    }
  }

  lemma LaunchSnoc(w: World, attempts: seq<nat>, pre: seq<Op>, b: seq<nat>, working: set<nat>)
    requires b != [] && Below(b, |attempts|)
    ensures var rest, i := b[..|b| - 1], b[|b| - 1];
      var ops, work := pre + LaunchOps(w, attempts, rest), working + Elements(Launched(w, attempts, rest));
      if w.starts(i, attempts[i]) then
        pre + LaunchOps(w, attempts, b) == ops + [Render(i)] && working + Elements(Launched(w, attempts, b)) == work + {i}
      else
        pre + LaunchOps(w, attempts, b) == ops + [Render(i), Done(i)] && working + Elements(Launched(w, attempts, b)) == work
  {
    var rest, i := b[..|b| - 1], b[|b| - 1];
    var gone := Launched(w, attempts, rest);
    assert Elements(gone + [i]) == Elements(gone) + {i};
    assert gone + [] == gone;
  }

  lemma LaunchedBelow(w: World, attempts: seq<nat>, b: seq<nat>)
    requires Below(b, |attempts|)
    ensures Elements(Launched(w, attempts, b)) <= Elements(b)
  {
  }

  lemma {:induction false} LaunchSegment(g: Graph, w: World, s: State, pre: seq<Op>, b: seq<nat>,
                                         waiting: set<nat>, working: set<nat>, k: nat, attempts: seq<nat>)
    requires ValidGraph(g) && Shape(g, s) && Reached(g, w, s, pre, waiting, working, k, attempts)
    requires Ascending(b) && Below(b, g.Size()) && |attempts| == g.Size() && Elements(b) <= waiting
    requires AllPar(g, waiting + working) && waiting !! working
    ensures Reached(g, w, s, pre + LaunchOps(w, attempts, b), waiting - Elements(b),
                    working + Elements(Launched(w, attempts, b)), k, attempts)
    decreases |b|
  {
    hide Reached;
    if b == [] {
      assert pre + LaunchOps(w, attempts, b) == pre && waiting - Elements(b) == waiting;
      assert working + Elements(Launched(w, attempts, b)) == working;
    } else {
      var rest, i := Split(b);
      LaunchSegment(g, w, s, pre, rest, waiting, working, k, attempts);
      var ops, gone := pre + LaunchOps(w, attempts, rest), Launched(w, attempts, rest);
      LaunchedBelow(w, attempts, rest);
      assert (waiting - Elements(rest)) !! (working + Elements(gone));
      LaunchOne(g, w, s, ops, waiting - Elements(rest), working + Elements(gone), k, attempts, i);
      assert waiting - Elements(b) == waiting - Elements(rest) - {i};
      LaunchSnoc(w, attempts, pre, b, working);
    }
  }

  lemma {:induction false} DoneSegment(g: Graph, w: World, s: State, pre: seq<Op>, b: seq<nat>,
                                       working: set<nat>, k: nat, attempts: seq<nat>)
    requires ValidGraph(g) && Shape(g, s) && Reached(g, w, s, pre, {}, working, k, attempts)
    requires Ascending(b) && Below(b, g.Size()) && AllPar(g, working) && Elements(b) <= working
    ensures Reached(g, w, s, pre + DoneOps(b), {}, working - Elements(b), k, attempts)
    decreases |b|
  {
    hide Reached;
    if b == [] {
      assert pre + DoneOps(b) == pre && working - Elements(b) == working;
    } else {
      var rest, i := Split(b);
      DoneSegment(g, w, s, pre, rest, working, k, attempts);
      ReachDone(g, w, s, pre + DoneOps(rest), {}, working - Elements(rest), k, attempts, i);
      assert pre + DoneOps(b) == pre + DoneOps(rest) + [Done(i)];
      assert working - Elements(b) == working - Elements(rest) - {i};
    }
  }

  lemma {:induction false} OfKindAscending(g: Graph, b: seq<nat>, kind: Kind)
    requires Below(b, g.Size()) && Ascending(b)
    ensures Ascending(OfKind(g, b, kind))
    decreases |b|
  {
    if b != [] {
      var rest, i := Split(b);
      OfKindAscending(g, rest, kind);
      AscendingSnoc(OfKind(g, rest, kind), rest, i);
    }
  }

  lemma AscendingSnoc(part: seq<nat>, rest: seq<nat>, i: nat)
    requires Ascending(part) && Ascending(rest + [i])
    requires forall x :: 0 <= x < |part| ==> part[x] in rest
    ensures Ascending(part + [i])
  {
    forall x | 0 <= x < |part|
      ensures part[x] < i
    {
      var y :| 0 <= y < |rest| && rest[y] == part[x];
      assert (rest + [i])[y] < (rest + [i])[|rest|];
    }
  }

  lemma {:induction false} LaunchedAscending(w: World, attempts: seq<nat>, b: seq<nat>)
    requires Below(b, |attempts|) && Ascending(b)
    ensures Ascending(Launched(w, attempts, b))
    decreases |b|
  {
    if b != [] {
      var rest, i := Split(b);
      LaunchedAscending(w, attempts, rest);
      AscendingSnoc(Launched(w, attempts, rest), rest, i);
    }
  }

  /** The kinds of a batch: what is left waiting after the inline nodes is its selects and agents. */
  lemma BatchSets(g: Graph, w: World, b: seq<nat>, attempts: seq<nat>)
    requires Below(b, g.Size()) && Ascending(b) && |attempts| == g.Size()
    ensures var selects, agents := OfKind(g, b, Select), OfKind(g, b, Agent);
      && Ascending(selects) && Ascending(agents) && Ascending(Launched(w, attempts, agents))
      && ParOf(g, b) == Elements(selects) + Elements(agents) && Elements(selects) !! Elements(agents)
      && Elements(Launched(w, attempts, agents)) <= Elements(agents)
      && AllPar(g, Elements(selects) + Elements(agents))
  {
    var selects, agents := OfKind(g, b, Select), OfKind(g, b, Agent);
    OfKindAscending(g, b, Select);
    OfKindAscending(g, b, Agent);
    LaunchedAscending(w, attempts, agents);
    assert ParOf(g, b) == Elements(selects) + Elements(agents);
  }

  lemma BatchReached(g: Graph, w: World, s: State, b: seq<nat>)
    requires ValidGraph(g) && Shape(g, s) && AllIdle(g, s) && Ascending(b)
    requires Below(b, g.Size()) && CanStart(g, s, b)
    ensures Reached(g, w, s, BatchOps(g, w, s.attempts, b), {}, {}, |b|, Bumped(s.attempts, b))
  {
    hide Reached, CanStart, AllIdle, Elements, StartOps, LaunchOps, OfKind, Launched, ParOf, Ascending, ValidGraph;
    hide RenderOps, DoneOps;
    var selects, agents, after := OfKind(g, b, Select), OfKind(g, b, Agent), Bumped(s.attempts, b);
    var launched := Launched(w, after, agents);
    BatchSets(g, w, b, after);
    var ss, aa, ll := Elements(selects), Elements(agents), Elements(launched);
    StartSegment(g, w, s, b);
    var ops := StartOps(g, b);
    RenderSegment(g, w, s, ops, selects, ss + aa, {}, |b|, after);
    ops := ops + RenderOps(selects);
    assert ss + aa - ss == aa && {} + ss == ss && aa - aa == {};
    LaunchSegment(g, w, s, ops, agents, aa, ss, |b|, after);
    ops := ops + LaunchOps(w, after, agents);
    DoneSegment(g, w, s, ops, launched, ss + ll, |b|, after);
    ops := ops + DoneOps(launched);
    assert ss + ll - ll == ss && ss - ss == {};
    DoneSegment(g, w, s, ops, selects, ss, |b|, after);
  }

  /** A whole batch: every operation of it is legal, each picked node takes one step, all end idle. */
  lemma BatchIsLegal(g: Graph, w: World, s: State, b: seq<nat>)
    requires ValidGraph(g) && Inv(g, s) && AllIdle(g, s) && Ascending(b)
    requires Below(b, g.Size()) && CanStart(g, s, b)
    ensures LegalAll(g, w, s, BatchOps(g, w, s.attempts, b))
    ensures var t := Play(g, w, s, BatchOps(g, w, s.attempts, b));
      Inv(g, t) && AllIdle(g, t) && t.steps == s.steps + |b| && t.attempts == Bumped(s.attempts, b)
  {
    BatchReached(g, w, s, b);
    PlayKeepsInv(g, w, s, BatchOps(g, w, s.attempts, b));
  }

  lemma RunnableCanStart(g: Graph, s: State)
    requires ValidGraph(g) && Shape(g, s)
    ensures CanStart(g, s, Runnable(g, s, g.Size()))
  {
  }

  // ---------------------------------------------------------------- the run

  ghost function Batch(g: Graph, w: World, s: State): (t: State)
    requires ValidGraph(g) && Inv(g, s) && AllIdle(g, s)
    ensures Inv(g, t) && AllIdle(g, t)
    ensures t.steps == s.steps + |Runnable(g, s, g.Size())|
  {
    var b := Runnable(g, s, g.Size());
    BatchIsLegal(g, w, s, b);
    Play(g, w, s, BatchOps(g, w, s.attempts, b))
  }

  lemma StepsWithinCaps(g: Graph, s: State)
    requires ValidGraph(g) && Inv(g, s)
    ensures s.steps <= Sum(Caps(g))
  {
    SumMonotone(s.attempts, Caps(g));
  }

  /** The loop: it stops at the step cap or when nothing is runnable. Each batch spends attempts, and
    there are only so many. */
  ghost function RunFrom(g: Graph, w: World, maxSteps: nat, s: State): (t: State)
    requires ValidGraph(g) && Inv(g, s) && AllIdle(g, s)
    ensures Inv(g, t) && AllIdle(g, t)
    ensures t.steps >= maxSteps || Runnable(g, t, g.Size()) == []
    decreases Sum(Caps(g)) - s.steps
  {
    if s.steps >= maxSteps || Runnable(g, s, g.Size()) == [] then s
    else
      StepsWithinCaps(g, s);
      StepsWithinCaps(g, Batch(g, w, s));
      RunFrom(g, w, maxSteps, Batch(g, w, s))
  }

  ghost function Run(g: Graph, w: World, maxSteps: nat): (t: State)
    requires ValidGraph(g)
    ensures Inv(g, t) && AllIdle(g, t)
  {
    InitInv(g);
    RunFrom(g, w, maxSteps, Init(g))
  }

  lemma {:induction false} StepBoundFrom(g: Graph, w: World, maxSteps: nat, s: State)
    requires ValidGraph(g) && Inv(g, s) && AllIdle(g, s)
    requires s.steps == 0 || s.steps + 1 <= maxSteps + g.Size()
    ensures var t := RunFrom(g, w, maxSteps, s); t.steps == 0 || t.steps + 1 <= maxSteps + g.Size()
    decreases Sum(Caps(g)) - s.steps
  {
    if !(s.steps >= maxSteps || Runnable(g, s, g.Size()) == []) {
      StepsWithinCaps(g, s);
      StepsWithinCaps(g, Batch(g, w, s));
      StepBoundFrom(g, w, maxSteps, Batch(g, w, s));
    }
  }

  /** Steps are attempts, within every node's cap, and within the step cap but for the last batch. */
  lemma StepsAreBounded(g: Graph, w: World, maxSteps: nat)
    requires ValidGraph(g)
    ensures var t := Run(g, w, maxSteps);
      && t.steps == Sum(t.attempts) && t.steps <= Sum(Caps(g))
      && (forall i :: 0 <= i < g.Size() ==> t.attempts[i] <= g.nodes[i].Cap())
      && (maxSteps == 0 ==> t.steps == 0)
      && (maxSteps >= 1 ==> t.steps <= maxSteps + g.Size() - 1)
  {
    InitInv(g);
    StepBoundFrom(g, w, maxSteps, Init(g));
    StepsWithinCaps(g, Run(g, w, maxSteps));
  }

  lemma {:induction false} AllRunnable(g: Graph, n: nat)
    requires ValidGraph(g) && g.edges == [] && n <= g.Size()
    ensures |Runnable(g, Init(g), n)| == n
  {
    if n > 0 {
      AllRunnable(g, n - 1);
      assert IsRunnable(g, Init(g), n - 1);
    }
  }

  /** The overshoot is real: a graph of unconnected nodes runs them all under a cap of one step. */
  lemma CapOvershoots(g: Graph, w: World)
    requires ValidGraph(g) && g.edges == []
    ensures Run(g, w, 1).steps == 1 + g.Size() - 1
  {
    InitInv(g);
    AllRunnable(g, g.Size());
    var t := Batch(g, w, Init(g));
    assert RunFrom(g, w, 1, Init(g)) == RunFrom(g, w, 1, t);
    assert RunFrom(g, w, 1, t) == t;
  }

  // ---------------------------------------------------------------- quiescence

  /** A gate joins two different nodes, since it climbs the rank. */
  lemma GateClimbs(g: Graph, k: nat)
    requires ValidGraph(g) && k < |g.edges| && !g.edges[k].feedback
    ensures Rank(Arcs(g.edges), Marks(g.edges), g.edges[k].from) < Rank(Arcs(g.edges), Marks(g.edges), g.edges[k].to)
  {
    assert Arcs(g.edges)[k] in Forward(Arcs(g.edges), Marks(g.edges));
    RankIncreases(Arcs(g.edges), Marks(g.edges), Arcs(g.edges)[k]);
  }

  /** When nothing is runnable, a node below its cap whose gates match has run, and was last shown the
    final outcome of every gate and every firing of an edge into it. The one exception is two parallel nodes
    that shared their last batch, the source being the first to come back. */
  lemma Quiescent(g: Graph, s: State, i: nat)
    requires ValidGraph(g) && Inv(g, s) && AllIdle(g, s) && Runnable(g, s, g.Size()) == []
    requires i < g.Size() && s.attempts[i] < g.nodes[i].Cap() && Satisfied(g, s, i)
    ensures s.attempts[i] > 0
    ensures forall k: nat :: g.Gate(k, i) ==>
      var f := g.edges[k].from;
      s.seen[i][f] == s.completed[f] || (g.Par(i) && g.Par(f) && s.completed[f] == s.scheduled[i])
    ensures forall k: nat :: k < |g.edges| && g.edges[k].to == i && g.edges[k].feedback ==>
      var f := g.edges[k].from;
      || s.fired[k] <= s.seen[i][f]
      || (s.fired[k] == s.scheduled[i] && (f == i || (g.Par(i) && g.Par(f))))
  {
    assert !IsRunnable(g, s, i);
    forall k: nat | g.Gate(k, i)
      ensures var f := g.edges[k].from;
        s.seen[i][f] == s.completed[f] || (g.Par(i) && g.Par(f) && s.completed[f] == s.scheduled[i])
    {
      GateClimbs(g, k);
      assert !FreshInput(g, s, i);
    }
    assert !Rollback(g, s, i);
  }

  /** No edge between two nodes that run in the background (agents and selects). */
  ghost predicate NoParallelEdge(g: Graph)
    requires ValidGraph(g)
  {
    forall k :: 0 <= k < |g.edges| ==> !(g.Par(g.edges[k].from) && g.Par(g.edges[k].to))
  }

  /** So a graph whose background nodes are only joined through checks and approvals ends with nothing
    stale, whatever the verdicts, once nothing is runnable. */
  lemma NothingStale(g: Graph, w: World, maxSteps: nat, i: nat)
    requires ValidGraph(g) && NoParallelEdge(g)
    requires var t := Run(g, w, maxSteps);
      && Runnable(g, t, g.Size()) == []
      && i < g.Size() && t.attempts[i] < g.nodes[i].Cap() && Satisfied(g, t, i)
    ensures var t := Run(g, w, maxSteps);
      && t.attempts[i] > 0
      && (forall k: nat :: g.Gate(k, i) ==> t.seen[i][g.edges[k].from] == t.completed[g.edges[k].from])
      && (forall k: nat :: k < |g.edges| && g.edges[k].to == i && g.edges[k].feedback && g.edges[k].from != i ==>
          t.fired[k] <= t.seen[i][g.edges[k].from])
  {
    InitInv(g);
    var t := Run(g, w, maxSteps);
    Quiescent(g, t, i);
  }

  /** A check or approval is never re-run by an edge from itself: it fires at the very epoch the node was
    scheduled at, and the test is strict. */
  lemma InlineSelfLoopIsDead(g: Graph, s: State, k: nat)
    requires ValidGraph(g) && Inv(g, s) && AllIdle(g, s)
    requires k < |g.edges| && g.edges[k].from == g.edges[k].to && !g.Par(g.edges[k].to)
    ensures s.fired[k] <= s.scheduled[g.edges[k].to]
  {
  }

  // ---------------------------------------------------------------- exit 0

  ghost predicate GoalMet(g: Graph, outcomes: seq<Option<Verdict>>)
    requires ValidGraph(g) && |outcomes| == g.Size()
  {
    match g.succeedWhen
    case Some(i) => outcomes[i] == Some(Pass)
    case None =>
      && (exists i: nat :: i < g.Size() && IsTerminal(Arcs(g.edges), Marks(g.edges), i))
      && (forall i: nat :: i < g.Size() && IsTerminal(Arcs(g.edges), Marks(g.edges), i) ==> outcomes[i] == Some(Pass))
  }

  /** A run succeeds when the node it names passed, or, naming none, when every node without a way forward did. */
  lemma GoalIs(g: Graph, outcomes: seq<Option<Verdict>>)
    requires ValidGraph(g) && |outcomes| == g.Size()
    ensures GoalMet(g, outcomes) <==>
      match g.succeedWhen
      case Some(i) => outcomes[i] == Some(Pass)
      case None =>
        forall i :: 0 <= i < g.Size() && (forall k :: 0 <= k < |g.edges| && g.edges[k].from == i ==> g.edges[k].feedback)
          ==> outcomes[i] == Some(Pass)
  {
    StartAndTerminalExist(g.Size(), Arcs(g.edges), Marks(g.edges));
    forall i: nat
      ensures IsTerminal(Arcs(g.edges), Marks(g.edges), i) <==>
        forall k :: 0 <= k < |g.edges| && g.edges[k].from == i ==> g.edges[k].feedback
    {
      TerminalIs(g, i);
    }
  }

  lemma TerminalIs(g: Graph, i: nat)
    ensures IsTerminal(Arcs(g.edges), Marks(g.edges), i) <==>
      forall k :: 0 <= k < |g.edges| && g.edges[k].from == i ==> g.edges[k].feedback
  {
    var arcs, marks := Arcs(g.edges), Marks(g.edges);
    forall k | 0 <= k < |g.edges|
      ensures arcs[k].0 == g.edges[k].from && marks[k] == g.edges[k].feedback
    {
    }
  }

  /** Everything upstream of the terminals ran, and every node is upstream of one. */
  lemma {:induction false} AncestorsRan(g: Graph, s: State, high: nat, i: nat)
    requires ValidGraph(g) && Inv(g, s) && i < g.Size()
    requires forall j: nat :: j < g.Size() ==>
      Rank(Arcs(g.edges), Marks(g.edges), j) <= Rank(Arcs(g.edges), Marks(g.edges), high)
    requires forall j: nat :: j < g.Size() && IsTerminal(Arcs(g.edges), Marks(g.edges), j) ==> s.outcomes[j].Some?
    ensures s.attempts[i] > 0
    decreases Rank(Arcs(g.edges), Marks(g.edges), high) - Rank(Arcs(g.edges), Marks(g.edges), i)
  {
    if !IsTerminal(Arcs(g.edges), Marks(g.edges), i) {
      var k: nat :| k < |g.edges| && !Marks(g.edges)[k] && Arcs(g.edges)[k].0 == i;
      GateClimbs(g, k);
      AncestorsRan(g, s, high, g.edges[k].to);
    }
  }

  /** A run that succeeds without `succeed_when` left no node out. */
  lemma ExitZeroRanEverything(g: Graph, w: World, maxSteps: nat)
    requires ValidGraph(g) && g.succeedWhen.None? && GoalMet(g, Run(g, w, maxSteps).outcomes)
    ensures forall i :: 0 <= i < g.Size() ==> Run(g, w, maxSteps).attempts[i] > 0
  {
    hide RunFrom, Clocked, Shown, ShownFirings, Counts;
    InitInv(g);
    var t := Run(g, w, maxSteps);
    assert Inv(g, t);
    var _, high := Extremes(Arcs(g.edges), Marks(g.edges), g.Size());
    forall i | 0 <= i < g.Size()
      ensures t.attempts[i] > 0
    {
      AncestorsRan(g, t, high, i);
    }
  }
}
