/** What a run comes to, spelled out by the conditions on the edges and the verdicts themselves. */
module GraphLaws {
  import opened Plan
  import opened Scheduler
  import opened GraphRun
  import opened GraphOnce
  import opened GraphStale
  import opened Wrappers

  /** A node is picked exactly when it has attempts left (of three, unless the file says otherwise), all its gates
    answered as asked, and it never started, or a gate or a feedback edge has news since it did. */
  lemma PickedIff(g: Graph, s: State, i: nat)
    requires ValidGraph(g) && Shape(g, s) && i < g.Size()
    ensures i in Runnable(g, s, g.Size()) <==>
      && (match g.nodes[i].maxAttempts case None => s.attempts[i] < 3 case Some(m) => s.attempts[i] < m || (m == 0 && s.attempts[i] == 0))
      && (forall k :: 0 <= k < |g.edges| && !g.edges[k].feedback && g.edges[k].to == i ==>
            var o := s.outcomes[g.edges[k].from];
            o.Some? && (g.edges[k].on.OnPass? ==> o.value.Pass?) && (g.edges[k].on.OnFail? ==> o.value.Fail?))
      && (|| s.scheduled[i] == 0
          || (exists k :: 0 <= k < |g.edges| && !g.edges[k].feedback && g.edges[k].to == i && s.completed[g.edges[k].from] > s.scheduled[i])
          || (exists k :: 0 <= k < |g.edges| && g.edges[k].feedback && g.edges[k].to == i && s.fired[k] > s.scheduled[i]))
  {
    SatisfiedMeans(g, s, i);
    FreshMeans(g, s, i);
    assert i in Runnable(g, s, g.Size()) <==> IsRunnable(g, s, i);
    hide Satisfied, FreshInput, Rollback, Runnable;
  }

  lemma SatisfiedMeans(g: Graph, s: State, i: nat)
    requires ValidGraph(g) && Shape(g, s) && i < g.Size()
    ensures Satisfied(g, s, i) <==>
      forall k :: 0 <= k < |g.edges| && !g.edges[k].feedback && g.edges[k].to == i ==>
        var o := s.outcomes[g.edges[k].from];
        o.Some? && (g.edges[k].on.OnPass? ==> o.value.Pass?) && (g.edges[k].on.OnFail? ==> o.value.Fail?)
  {
    assert forall k: nat :: g.Gate(k, i) <==> k < |g.edges| && !g.edges[k].feedback && g.edges[k].to == i;
  }

  lemma FreshMeans(g: Graph, s: State, i: nat)
    requires ValidGraph(g) && Shape(g, s) && i < g.Size()
    ensures FreshInput(g, s, i) <==>
      exists k :: 0 <= k < |g.edges| && !g.edges[k].feedback && g.edges[k].to == i && s.completed[g.edges[k].from] > s.scheduled[i]
    ensures Rollback(g, s, i) <==>
      exists k :: 0 <= k < |g.edges| && g.edges[k].feedback && g.edges[k].to == i && s.fired[k] > s.scheduled[i]
  {
    assert forall k: nat :: g.Gate(k, i) <==> k < |g.edges| && !g.edges[k].feedback && g.edges[k].to == i;
  }

  /** A completion records the node's verdict, which is a failure if its agent couldn't be started, and fires exactly
    the edges out of it whose condition that meets. */
  lemma DoneFires(g: Graph, w: World, s: State, i: nat, k: nat)
    requires Shape(g, s) && i < g.Size() && k < |g.edges|
    ensures var t := Apply(g, w, s, Done(i));
      var v := if g.nodes[i].kind.Agent? && !w.starts(i, s.attempts[i]) then Fail else w.verdict(i, s.attempts[i]);
      && t.outcomes[i] == Some(v) && t.completed[i] == t.epoch == s.epoch + 1
      && t.fired[k] ==
         if g.edges[k].from == i && (g.edges[k].on.OnAlways? || (g.edges[k].on.OnPass? && v.Pass?) || (g.edges[k].on.OnFail? && v.Fail?))
         then s.epoch + 1 else s.fired[k]
  {
  }

  /** In a run without feedback edges that left nothing to run, a node ran exactly when every gate's source ran and
    came out as the gate asks; an agent that couldn't be started came out as failed. */
  lemma RanIff(g: Graph, w: World, maxSteps: nat, i: nat)
    requires ValidGraph(g) && NoFeedback(g) && Runnable(g, Run(g, w, maxSteps), g.Size()) == [] && i < g.Size()
    ensures var t := Run(g, w, maxSteps);
      && (t.attempts[i] > 0 <==>
            forall k :: 0 <= k < |g.edges| && g.edges[k].to == i ==>
              && t.attempts[g.edges[k].from] > 0
              && (g.edges[k].on.OnPass? ==> t.outcomes[g.edges[k].from] == Some(Pass))
              && (g.edges[k].on.OnFail? ==> t.outcomes[g.edges[k].from] == Some(Fail)))
      && t.outcomes[i] ==
         if t.attempts[i] == 0 then None
         else if g.nodes[i].kind.Agent? && !w.starts(i, 1) then Some(Fail) else Some(w.verdict(i, 1))
  {
    hide Run, Runnable, Closed, Enabled, Inv, VerdictOf;
    RunShape(g, w, maxSteps);
    RunsTheLeastSet(g, w, maxSteps);
    var t := Run(g, w, maxSteps);
    if t.attempts[i] > 0 {
      GatesAnswered(g, w, maxSteps, i);
    }
    if Enabled(g, w, Ran(g, t), i) {
      ClosedAt(g, w, Ran(g, t), i);
    }
    EnabledMeans(g, w, t, i);
    VerdictMeans(g, w, i);
  }

  lemma VerdictMeans(g: Graph, w: World, i: nat)
    requires i < g.Size()
    ensures VerdictOf(g, w, i, 1) == if g.nodes[i].kind.Agent? && !w.starts(i, 1) then Fail else w.verdict(i, 1)
  {
  }

  /** In terms of the outcomes of what ran. */
  lemma EnabledMeans(g: Graph, w: World, t: State, i: nat)
    requires ValidGraph(g) && Shape(g, t) && i < g.Size()
    requires forall j: nat :: j < g.Size() ==> t.outcomes[j] == if j in Ran(g, t) then Some(VerdictOf(g, w, j, 1)) else None
    ensures Enabled(g, w, Ran(g, t), i) <==>
      forall k :: 0 <= k < |g.edges| && g.edges[k].to == i && !g.edges[k].feedback ==>
        && t.attempts[g.edges[k].from] > 0
        && (g.edges[k].on.OnPass? ==> t.outcomes[g.edges[k].from] == Some(Pass))
        && (g.edges[k].on.OnFail? ==> t.outcomes[g.edges[k].from] == Some(Fail))
  {
    hide VerdictOf;
    assert forall k: nat :: g.Gate(k, i) <==> k < |g.edges| && g.edges[k].to == i && !g.edges[k].feedback;
  }

  lemma RunShape(g: Graph, w: World, maxSteps: nat)
    requires ValidGraph(g)
    ensures Shape(g, Run(g, w, maxSteps))
  {
  }

  lemma ClosedAt(g: Graph, w: World, x: set<nat>, i: nat)
    requires ValidGraph(g) && Closed(g, w, x) && i < g.Size() && Enabled(g, w, x, i)
    ensures i in x
  {
  }

  /** What ran has all its gates answered as asked. */
  lemma GatesAnswered(g: Graph, w: World, maxSteps: nat, i: nat)
    requires ValidGraph(g) && NoFeedback(g) && i < g.Size() && Run(g, w, maxSteps).attempts[i] > 0
    ensures Enabled(g, w, Ran(g, Run(g, w, maxSteps)), i)
  {
    hide RunFrom, Counts, GatesFirst, Shown, ShownFirings;
    InitInv(g);
    InitOnce(g, w);
    RunKeepsOnce(g, w, maxSteps, Init(g));
  }

  /** Without feedback edges a step cap above the number of nodes is never reached, so nothing is left to run. */
  lemma NothingLeft(g: Graph, w: World, maxSteps: nat)
    requires ValidGraph(g) && NoFeedback(g) && maxSteps > g.Size()
    ensures Runnable(g, Run(g, w, maxSteps), g.Size()) == []
  {
    hide Clocked, Counts, GatesFirst, Shown, ShownFirings, Once, Runnable;
    InitInv(g);
    InitOnce(g, w);
    RunKeepsOnce(g, w, maxSteps, Init(g));
    var t := Run(g, w, maxSteps);
    RanOutcomes(g, w, t);
    StepsAreBounded(g, w, maxSteps);
    SumOfOnes(t.attempts);
  }

  lemma {:induction false} SumOfOnes(s: seq<nat>)
    requires forall i :: 0 <= i < |s| ==> s[i] <= 1
    ensures Sum(s) <= |s|
  {
    if s != [] {
      SumOfOnes(s[..|s| - 1]);
    }
  }

  // ---------------------------------------------------------------- two checks, one edge

  function OneEdge(on: On): Graph {
    Graph([Node(Check, None), Node(Check, None)], [Edge(0, 1, on, false)], None)
  }

  lemma OneEdgeIsValid(on: On)
    ensures ValidGraph(OneEdge(on)) && NoFeedback(OneEdge(on))
  {
    var arcs, marks := Arcs(OneEdge(on).edges), Marks(OneEdge(on).edges);
    NoWayBack(Forward(arcs[..0], marks[..0]), 1, 0);
    assert Greedy(arcs, marks);
  }

  /** The second check runs exactly when the first comes out as the edge asks, and the run succeeds exactly when it
    ran and passed: a pass edge is taken on a pass, a fail edge on a failure. */
  lemma OneEdgeRuns(on: On, w: World, maxSteps: nat)
    requires maxSteps > 2
    ensures ValidGraph(OneEdge(on))
    ensures var t, first, second := Run(OneEdge(on), w, maxSteps), w.verdict(0, 1), w.verdict(1, 1);
      var taken := match on case OnPass => first.Pass? case OnFail => first.Fail? case OnAlways => true;
      && t.outcomes == [Some(first), if taken then Some(second) else None]
      && (GoalMet(OneEdge(on), t.outcomes) <==> taken && second.Pass?)
  {
    hide Run, Runnable, GoalMet, ValidGraph, Inv, AllIdle, NoFeedback;
    var g := OneEdge(on);
    OneEdgeIsValid(on);
    NothingLeft(g, w, maxSteps);
    RanIff(g, w, maxSteps, 0);
    RanIff(g, w, maxSteps, 1);
    RunShape(g, w, maxSteps);
    GoalIs(g, Run(g, w, maxSteps).outcomes);
    assert g.edges[0] == Edge(0, 1, on, false);
  }
}
