/** A graph without rollback edges: every node runs at most once, and which ones run is settled by the
  verdicts alone. */
module GraphOnce {
  import opened Plan
  import opened Scheduler
  import opened GraphRun
  import opened Wrappers

  ghost predicate NoFeedback(g: Graph) {
    forall k :: 0 <= k < |g.edges| ==> !g.edges[k].feedback
  }

  /** Every gate of `i` leads from a node of `x`, whose first verdict matches. */
  ghost predicate Enabled(g: Graph, w: World, x: set<nat>, i: nat)
    requires ValidGraph(g)
  {
    forall k: nat :: g.Gate(k, i) ==>
      g.edges[k].from in x && g.edges[k].on.Matches(VerdictOf(g, w, g.edges[k].from, 1))
  }

  /** `x` is closed under "all gates match, so it runs". */
  ghost predicate Closed(g: Graph, w: World, x: set<nat>)
    requires ValidGraph(g)
  {
    forall i: nat :: i < g.Size() && Enabled(g, w, x, i) ==> i in x
  }

  /** The nodes that ran. */
  ghost function Ran(g: Graph, s: State): (x: set<nat>)
    requires Shape(g, s)
    ensures forall i: nat :: i in x <==> i < g.Size() && s.attempts[i] > 0
  {
    set i: nat | 0 <= i < g.Size() && s.attempts[i] > 0
  }

  /** So far every node ran at most once, after its gates, and with its first verdict. */
  ghost predicate Once(g: Graph, w: World, s: State)
    requires ValidGraph(g) && Shape(g, s)
  {
    && (forall i :: 0 <= i < g.Size() ==>
      && s.attempts[i] <= 1
      && (s.outcomes[i].Some? ==> s.attempts[i] == 1 && s.phase[i].Idle? && s.outcomes[i].value == VerdictOf(g, w, i, 1)))
    && (forall k :: 0 <= k < |g.edges| && !g.edges[k].feedback && s.attempts[g.edges[k].to] > 0 ==>
      && s.outcomes[g.edges[k].from].Some?
      && s.completed[g.edges[k].from] < s.scheduled[g.edges[k].to]
      && g.edges[k].on.Matches(VerdictOf(g, w, g.edges[k].from, 1)))
  }

  ghost predicate FirstStart(g: Graph, w: World, s: State, i: nat)
    requires ValidGraph(g) && Shape(g, s) && i < g.Size()
  {
    s.attempts[i] == 0 && s.phase[i].Idle? &&
    forall k: nat :: g.Gate(k, i) ==>
      s.outcomes[g.edges[k].from].Some? && g.edges[k].on.Matches(VerdictOf(g, w, g.edges[k].from, 1))
  }

  lemma StartKeepsOnce(g: Graph, w: World, s: State, i: nat)
    requires ValidGraph(g) && Inv(g, s) && Once(g, w, s) && i < g.Size() && FirstStart(g, w, s, i)
    ensures Shape(g, Apply(g, w, s, Start(i))) && Once(g, w, Apply(g, w, s, Start(i)))
  {
    hide Shown, ShownFirings, Counts, GatesFirst;
    var t := Apply(g, w, s, Start(i));
    ApplyShape(g, w, s, Start(i));
    forall k | 0 <= k < |g.edges| && !g.edges[k].feedback && t.attempts[g.edges[k].to] > 0
      ensures t.outcomes[g.edges[k].from].Some? && t.completed[g.edges[k].from] < t.scheduled[g.edges[k].to]
      ensures g.edges[k].on.Matches(VerdictOf(g, w, g.edges[k].from, 1))
    {
      if g.edges[k].to == i {
        assert g.Gate(k, i);
      }
    }
  }

  lemma OtherKeepsOnce(g: Graph, w: World, s: State, op: Op)
    requires ValidGraph(g) && Inv(g, s) && Once(g, w, s) && op.node < g.Size() && Legal(g, s, op) && !op.Start?
    ensures Shape(g, Apply(g, w, s, op)) && Once(g, w, Apply(g, w, s, op))
  {
    hide Shown, ShownFirings, Counts, GatesFirst;
    ApplyShape(g, w, s, op);
  }

  ghost predicate AtMostOnce(g: Graph, s: State)
    requires Shape(g, s)
  {
    forall i :: 0 <= i < g.Size() ==> s.attempts[i] <= 1
  }

  /** A legal start in a stretch that never takes a node past one attempt is that node's first. */
  lemma StartIsFirst(g: Graph, w: World, s: State, t: State, i: nat)
    requires ValidGraph(g) && Shape(g, s) && Inv(g, t) && Once(g, w, t) && KeepsOutcomes(g, s, t) && i < g.Size()
    requires FirstStart(g, w, s, i) && Legal(g, t, Start(i)) && AtMostOnce(g, Apply(g, w, t, Start(i)))
    ensures FirstStart(g, w, t, i)
  {
    hide Shown, ShownFirings, Counts, GatesFirst, Clocked;
    assert Apply(g, w, t, Start(i)).attempts[i] <= 1;
  }

  lemma OpKeepsOutcomes(g: Graph, w: World, s: State, op: Op)
    requires Shape(g, s) && op.node < g.Size()
    ensures Shape(g, Apply(g, w, s, op)) && KeepsOutcomes(g, s, Apply(g, w, s, op))
    ensures AtMostOnce(g, Apply(g, w, s, op)) ==> AtMostOnce(g, s)
  {
    ApplyShape(g, w, s, op);
    assert forall i :: 0 <= i < g.Size() ==> s.attempts[i] <= Apply(g, w, s, op).attempts[i];
  }

  ghost predicate StartsFrom(g: Graph, w: World, s: State, ops: seq<Op>)
    requires ValidGraph(g) && Shape(g, s)
  {
    forall x :: 0 <= x < |ops| && ops[x].Start? ==> ops[x].node < g.Size() && FirstStart(g, w, s, ops[x].node)
  }

  lemma {:induction false} PlayKeepsOnce(g: Graph, w: World, s: State, ops: seq<Op>)
    requires ValidGraph(g) && Inv(g, s) && Once(g, w, s) && LegalAll(g, w, s, ops) && StartsFrom(g, w, s, ops)
    requires AtMostOnce(g, Play(g, w, s, ops))
    ensures Once(g, w, Play(g, w, s, ops)) && KeepsOutcomes(g, s, Play(g, w, s, ops))
    decreases |ops|
  {
    hide Clocked, Counts, GatesFirst, Shown, ShownFirings, Once, Legal, FirstStart;
    if ops != [] {
      var op, rest := ops[|ops| - 1], ops[..|ops| - 1];
      assert LegalAll(g, w, s, rest);
      var t := Play(g, w, s, rest);
      OpKeepsOutcomes(g, w, t, op);
      PlayKeepsInv(g, w, s, rest);
      PlayKeepsOnce(g, w, s, rest);
      if op.Start? {
        assert op == Start(op.node);
        StartIsFirst(g, w, s, t, op.node);
        StartKeepsOnce(g, w, t, op.node);
      } else {
        OtherKeepsOnce(g, w, t, op);
      }
    }
  }

  /** Only nodes that never ran are picked. */
  lemma PickedAreNew(g: Graph, w: World, s: State, i: nat)
    requires ValidGraph(g) && NoFeedback(g) && Inv(g, s) && AllIdle(g, s) && Once(g, w, s)
    requires i < g.Size() && IsRunnable(g, s, i)
    ensures FirstStart(g, w, s, i)
  {
    hide Shown, ShownFirings, Counts, GatesFirst;
  }

  lemma {:induction false} StartOpsNodes(g: Graph, b: seq<nat>, x: nat)
    requires Below(b, g.Size()) && x < |StartOps(g, b)|
    ensures StartOps(g, b)[x].node in b
    decreases |b|
  {
    var rest := b[..|b| - 1];
    assert b == rest + [b[|b| - 1]];
    if x < |StartOps(g, rest)| {
      StartOpsNodes(g, rest, x);
    }
  }

  lemma {:induction false} LaunchOpsStartNothing(w: World, attempts: seq<nat>, b: seq<nat>)
    requires Below(b, |attempts|)
    ensures forall op :: op in LaunchOps(w, attempts, b) ==> !op.Start?
    decreases |b|
  {
    if b != [] {
      LaunchOpsStartNothing(w, attempts, b[..|b| - 1]);
    }
  }

  lemma BatchStartsFrom(g: Graph, w: World, s: State, b: seq<nat>)
    requires ValidGraph(g) && Shape(g, s) && Below(b, g.Size())
    requires forall x :: 0 <= x < |b| ==> FirstStart(g, w, s, b[x])
    ensures StartsFrom(g, w, s, BatchOps(g, w, s.attempts, b))
  {
    hide FirstStart;
    var ops, starts := BatchOps(g, w, s.attempts, b), StartOps(g, b);
    LaunchOpsStartNothing(w, Bumped(s.attempts, b), OfKind(g, b, Agent));
    forall x | 0 <= x < |ops| && ops[x].Start?
      ensures ops[x].node < g.Size() && FirstStart(g, w, s, ops[x].node)
    {
      assert x < |starts| && ops[x] == starts[x];
      StartOpsNodes(g, b, x);
    }
  }

  lemma BatchKeepsOnce(g: Graph, w: World, s: State)
    requires ValidGraph(g) && NoFeedback(g) && Inv(g, s) && AllIdle(g, s) && Once(g, w, s)
    ensures Once(g, w, Batch(g, w, s))
  {
    var b := Runnable(g, s, g.Size());
    assert Below(b, g.Size());
    forall x | 0 <= x < |b|
      ensures FirstStart(g, w, s, b[x])
    {
      PickedAreNew(g, w, s, b[x]);
    }
    hide IsRunnable, Inv, Legal;
    BatchIsLegal(g, w, s, b);
    BatchStartsFrom(g, w, s, b);
    var t := Play(g, w, s, BatchOps(g, w, s.attempts, b));
    forall i | 0 <= i < g.Size()
      ensures t.attempts[i] <= 1
    {
      if i in b {
        var x :| 0 <= x < |b| && b[x] == i;
        assert FirstStart(g, w, s, b[x]);
      }
    }
    PlayKeepsOnce(g, w, s, BatchOps(g, w, s.attempts, b));
  }

  lemma {:induction false} RunKeepsOnce(g: Graph, w: World, maxSteps: nat, s: State)
    requires ValidGraph(g) && NoFeedback(g) && Inv(g, s) && AllIdle(g, s) && Once(g, w, s)
    ensures Once(g, w, RunFrom(g, w, maxSteps, s))
    decreases Sum(Caps(g)) - s.steps
  {
    hide Clocked, Counts, GatesFirst, Shown, ShownFirings, Once, AllIdle, Batch;
    if !(s.steps >= maxSteps || Runnable(g, s, g.Size()) == []) {
      StepsWithinCaps(g, s);
      StepsWithinCaps(g, Batch(g, w, s));
      BatchKeepsOnce(g, w, s);
      RunKeepsOnce(g, w, maxSteps, Batch(g, w, s));
    }
  }

  lemma {:induction false} RanIsLeast(g: Graph, w: World, s: State, x: set<nat>, i: nat)
    requires ValidGraph(g) && NoFeedback(g) && Inv(g, s) && Once(g, w, s)
    requires Closed(g, w, x) && i in Ran(g, s)
    ensures i in x
    decreases Rank(Arcs(g.edges), Marks(g.edges), i)
  {
    forall k: nat | g.Gate(k, i)
      ensures g.edges[k].from in x && g.edges[k].on.Matches(VerdictOf(g, w, g.edges[k].from, 1))
    {
      GateClimbs(g, k);
      RanIsLeast(g, w, s, x, g.edges[k].from);
    }
    assert Enabled(g, w, x, i);
  }

  lemma RanIsClosed(g: Graph, w: World, s: State)
    requires ValidGraph(g) && NoFeedback(g) && Inv(g, s) && AllIdle(g, s) && Once(g, w, s)
    requires Runnable(g, s, g.Size()) == []
    ensures Closed(g, w, Ran(g, s))
  {
    forall i: nat | i < g.Size() && Enabled(g, w, Ran(g, s), i)
      ensures i in Ran(g, s)
    {
      forall k: nat | g.Gate(k, i)
        ensures s.outcomes[g.edges[k].from].Some?
        ensures g.edges[k].on.Matches(s.outcomes[g.edges[k].from].value)
      {
        assert g.edges[k].from in Ran(g, s);
      }
      assert Satisfied(g, s, i);
      assert !IsRunnable(g, s, i);
    }
  }

  lemma InitOnce(g: Graph, w: World)
    requires ValidGraph(g)
    ensures Once(g, w, Init(g))
  {
  }

  lemma RanOutcomes(g: Graph, w: World, s: State)
    requires ValidGraph(g) && Inv(g, s) && AllIdle(g, s) && Once(g, w, s)
    ensures AtMostOnce(g, s)
    ensures forall i: nat :: i < g.Size() ==>
      s.outcomes[i] == if i in Ran(g, s) then Some(VerdictOf(g, w, i, 1)) else None
  {
    hide Shown, ShownFirings, Counts, GatesFirst;
  }

  /** A run without rollback edges that left nothing to run: every node ran at most once, and the set
    that ran is the least one closed under "every gate ran and its verdict matches". */
  lemma RunsTheLeastSet(g: Graph, w: World, maxSteps: nat)
    requires ValidGraph(g) && NoFeedback(g) && Runnable(g, Run(g, w, maxSteps), g.Size()) == []
    ensures var t := Run(g, w, maxSteps);
      && (forall i :: 0 <= i < g.Size() ==> t.attempts[i] <= 1)
      && Closed(g, w, Ran(g, t))
      && (forall x :: Closed(g, w, x) ==> Ran(g, t) <= x)
      && (forall i: nat :: i < g.Size() ==>
          t.outcomes[i] == if i in Ran(g, t) then Some(VerdictOf(g, w, i, 1)) else None)
  {
    hide Clocked, Counts, GatesFirst, Shown, ShownFirings, RunFrom, Closed, IsRunnable, Once;
    InitInv(g);
    InitOnce(g, w);
    RunKeepsOnce(g, w, maxSteps, Init(g));
    var t := Run(g, w, maxSteps);
    RanIsClosed(g, w, t);
    RanOutcomes(g, w, t);
    forall x, i | Closed(g, w, x) && i in Ran(g, t)
      ensures i in x
    {
      RanIsLeast(g, w, t, x, i);
    }
  }

  /** Two graphs with the same edges and the same first verdicts end with the same outcomes, whatever kinds
    their nodes are (so in whatever batches and order they ran), whatever came of later attempts, and
    whatever the two step caps. */
  lemma OnlyVerdictsMatter(g: Graph, w: World, maxSteps: nat, g': Graph, w': World, maxSteps': nat)
    requires ValidGraph(g) && NoFeedback(g) && ValidGraph(g') && g'.edges == g.edges && g'.Size() == g.Size()
    requires Runnable(g, Run(g, w, maxSteps), g.Size()) == [] && Runnable(g', Run(g', w', maxSteps'), g'.Size()) == []
    requires forall i: nat :: i < g.Size() ==> VerdictOf(g, w, i, 1) == VerdictOf(g', w', i, 1)
    ensures Run(g, w, maxSteps).outcomes == Run(g', w', maxSteps').outcomes
  {
    hide Run, Closed;
    RunsTheLeastSet(g, w, maxSteps);
    RunsTheLeastSet(g', w', maxSteps');
    var t, t' := Run(g, w, maxSteps), Run(g', w', maxSteps');
    assert Closed(g, w, Ran(g', t')) by { SameClosed(g, w, g', w', Ran(g', t')); }
    assert Closed(g', w', Ran(g, t)) by { SameClosed(g', w', g, w, Ran(g, t)); }
    assert Ran(g, t) == Ran(g', t');
  }

  lemma SameClosed(g: Graph, w: World, g': Graph, w': World, x: set<nat>)
    requires ValidGraph(g) && ValidGraph(g') && g'.edges == g.edges && g'.Size() == g.Size()
    requires forall i: nat :: i < g.Size() ==> VerdictOf(g, w, i, 1) == VerdictOf(g', w', i, 1)
    requires Closed(g', w', x)
    ensures Closed(g, w, x)
  {
    forall i: nat | i < g.Size() && Enabled(g, w, x, i)
      ensures i in x
    {
      forall k: nat | g'.Gate(k, i)
        ensures g'.edges[k].from in x && g'.edges[k].on.Matches(VerdictOf(g', w', g'.edges[k].from, 1))
      {
        assert g.Gate(k, i);
      }
      assert Enabled(g', w', x, i);
    }
  }
}
