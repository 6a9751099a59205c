/** Two runs that end with a node on old input: where the quiescence theorem stops. */
module GraphStale {
  import opened Plan
  import opened Scheduler
  import opened GraphRun
  import opened Wrappers

  // ---------------------------------------------------------------- evaluating small batches

  lemma PlayOne(g: Graph, w: World, s: State, a: Op)
    requires Shape(g, s) && a.node < g.Size()
    ensures InRange(g, [a]) && Play(g, w, s, [a]) == Apply(g, w, s, a)
  {
    PlaySnoc(g, w, s, [], a);
    assert [] + [a] == [a];
  }

  lemma PlayTwo(g: Graph, w: World, s: State, a: Op, b: Op)
    requires Shape(g, s) && a.node < g.Size() && b.node < g.Size()
    ensures InRange(g, [a, b]) && Shape(g, Apply(g, w, s, a))
    ensures Play(g, w, s, [a, b]) == Apply(g, w, Apply(g, w, s, a), b)
  {
    PlayOne(g, w, s, a);
    ApplyShape(g, w, s, a);
    PlaySnoc(g, w, s, [a], b);
    assert [a] + [b] == [a, b];
  }

  lemma PlayThree(g: Graph, w: World, s: State, a: Op, b: Op, c: Op)
    requires Shape(g, s) && a.node < g.Size() && b.node < g.Size() && c.node < g.Size()
    ensures InRange(g, [a, b, c]) && Shape(g, Apply(g, w, s, a)) && Shape(g, Apply(g, w, Apply(g, w, s, a), b))
    ensures Play(g, w, s, [a, b, c]) == Apply(g, w, Apply(g, w, Apply(g, w, s, a), b), c)
  {
    PlayTwo(g, w, s, a, b);
    ApplyShape(g, w, Apply(g, w, s, a), b);
    PlaySnoc(g, w, s, [a, b], c);
    assert [a, b] + [c] == [a, b, c];
  }

  lemma StartOpsOne(g: Graph, i: nat)
    requires i < g.Size()
    ensures StartOps(g, [i]) == if g.Par(i) then [Start(i)] else [Start(i), Done(i)]
  {
    var one: seq<nat> := [i];
    assert one[..0] == [] && StartOps(g, one[..0]) == [];
  }

  lemma OfKindOne(g: Graph, i: nat, kind: Kind)
    requires i < g.Size()
    ensures OfKind(g, [i], kind) == if g.nodes[i].kind == kind then [i] else []
  {
    var one: seq<nat> := [i];
    assert one[..0] == [] && OfKind(g, one[..0], kind) == [];
  }

  lemma LaunchOne(w: World, attempts: seq<nat>, i: nat)
    requires i < |attempts| && w.starts(i, attempts[i])
    ensures LaunchOps(w, attempts, [i]) == [Render(i)] && Launched(w, attempts, [i]) == [i]
  {
    var one: seq<nat> := [i];
    assert one[..0] == [] && LaunchOps(w, attempts, one[..0]) == [] && Launched(w, attempts, one[..0]) == [];
  }

  lemma CheckBatch(g: Graph, w: World, attempts: seq<nat>, i: nat)
    requires |attempts| == g.Size() && i < g.Size() && g.nodes[i].kind.Inline()
    ensures BatchOps(g, w, attempts, [i]) == [Start(i), Done(i)]
  {
    StartOpsOne(g, i);
    OfKindOne(g, i, Agent);
    OfKindOne(g, i, Select);
    assert LaunchOps(w, Bumped(attempts, [i]), []) == [] && Launched(w, Bumped(attempts, [i]), []) == [];
  }

  lemma AgentBatch(g: Graph, w: World, attempts: seq<nat>, i: nat)
    requires |attempts| == g.Size() && i < g.Size() && g.nodes[i].kind.Agent? && w.starts(i, attempts[i] + 1)
    ensures BatchOps(g, w, attempts, [i]) == [Start(i), Render(i), Done(i)]
  {
    StartOpsOne(g, i);
    OfKindOne(g, i, Agent);
    OfKindOne(g, i, Select);
    LaunchOne(w, Bumped(attempts, [i]), i);
    hide StartOps, OfKind, LaunchOps, Launched;
    assert RenderOps([]) == [] && DoneOps([]) == [] && DoneOps([i]) == [Done(i)];
    ConcatThree(Start(i), Render(i), Done(i));
    hide RenderOps, DoneOps;
  }

  lemma TwoAgentsParts(g: Graph, w: World, attempts: seq<nat>, i: nat, j: nat)
    requires |attempts| == g.Size() && i < g.Size() && g.nodes[i].kind.Agent? && w.starts(i, attempts[i])
    requires j < g.Size() && g.nodes[j].kind.Agent? && w.starts(j, attempts[j])
    ensures StartOps(g, [i, j]) == [Start(i), Start(j)]
    ensures OfKind(g, [i, j], Agent) == [i, j] && OfKind(g, [i, j], Select) == []
    ensures LaunchOps(w, attempts, [i, j]) == [Render(i), Render(j)] && Launched(w, attempts, [i, j]) == [i, j]
  {
    hide StartOps, OfKind, LaunchOps, Launched;
    StartOpsSnoc(g, [i, j], 1);
    OfKindSnoc(g, [i, j], 1, Agent);
    OfKindSnoc(g, [i, j], 1, Select);
    LaunchOpsSnoc(w, attempts, [i, j], 1);
    assert [i, j][..1] == [i] && [i, j][..2] == [i, j];
    StartOpsOne(g, i);
    StartOpsOne(g, j);
    OfKindOne(g, i, Agent);
    OfKindOne(g, i, Select);
    LaunchOne(w, attempts, i);
    LaunchOne(w, attempts, j);
  }

  /** Two agents picked together: both prompts are rendered before either comes back. */
  lemma TwoAgentsBatch(g: Graph, w: World, attempts: seq<nat>, i: nat, j: nat)
    requires |attempts| == g.Size() && i < g.Size() && g.nodes[i].kind.Agent? && w.starts(i, attempts[i] + 1)
    requires j < g.Size() && g.nodes[j].kind.Agent? && w.starts(j, attempts[j] + 1)
    ensures BatchOps(g, w, attempts, [i, j]) == [Start(i), Start(j), Render(i)] + [Render(j), Done(i), Done(j)]
  {
    TwoAgentsParts(g, w, Bumped(attempts, [i, j]), i, j);
    DoneTwo(i, j);
    hide StartOps, OfKind, LaunchOps, Launched, RenderOps, DoneOps;
    ConcatFive([Start(i), Start(j)], [Render(i), Render(j)], [Done(i), Done(j)]);
  }

  lemma DoneTwo(i: nat, j: nat)
    ensures RenderOps([]) == [] && DoneOps([]) == [] && DoneOps([i, j]) == [Done(i), Done(j)]
  {
  }

  lemma ConcatThree(a: Op, b: Op, c: Op)
    ensures [a] + [] + [b] + [c] + [] == [a, b, c]
  {
  }

  lemma ConcatFive(a: seq<Op>, b: seq<Op>, c: seq<Op>)
    requires |a| == |b| == |c| == 2
    ensures a + [] + b + c + [] == [a[0], a[1], b[0]] + [b[1], c[0], c[1]]
  {
    assert a + [] + b + c + [] == a + b + c;
  }

  /** One turn of the loop. */
  lemma Turn(g: Graph, w: World, maxSteps: nat, s: State, b: seq<nat>, t: State)
    requires ValidGraph(g) && Inv(g, s) && AllIdle(g, s) && s.steps < maxSteps
    requires b != [] && Runnable(g, s, g.Size()) == b && Below(b, g.Size())
    requires InRange(g, BatchOps(g, w, s.attempts, b)) && t == Play(g, w, s, BatchOps(g, w, s.attempts, b))
    ensures Inv(g, t) && AllIdle(g, t) && RunFrom(g, w, maxSteps, s) == RunFrom(g, w, maxSteps, t)
  {
    assert t == Batch(g, w, s);
  }

  /** `v` is a sink of the arcs, so it reaches only itself. */
  lemma NoWayBack(dag: seq<Arc>, v: nat, u: nat)
    requires u != v && forall e :: e in dag ==> e.0 != v
    ensures !Connects(dag, v, u)
  {
    forall p | PathBetween(dag, p, v, u)
      ensures false
    {
      ClosedHoldsPath(dag, {v}, p);
    }
  }

  // ---------------------------------------------------------------- a check that fails back to itself

  function Loop(): Graph {
    Graph([Node(Check, None)], [Edge(0, 0, OnFail, true)], None)
  }

  function LoopEnd(): State {
    State([Some(Fail)], [1], [1], [1], [1], 1, 1, [[0]], [Idle])
  }

  lemma LoopIsValid()
    ensures ValidGraph(Loop())
  {
    var arcs, marks := Arcs(Loop().edges), Marks(Loop().edges);
    ConnectsSelf(Forward(arcs[..0], marks[..0]), 0);
    assert Greedy(arcs, marks);
  }

  lemma LoopRunnable(s: State)
    requires ValidGraph(Loop()) && Shape(Loop(), s)
    ensures Runnable(Loop(), s, 1) ==
      if s.attempts[0] < 3 && (s.scheduled[0] == 0 || s.fired[0] > s.scheduled[0]) then [0] else []
  {
    var g := Loop();
    assert forall k: nat :: !g.Gate(k, 0);
    assert Rollback(g, s, 0) <==> s.fired[0] > s.scheduled[0];
    assert Runnable(g, s, 0) == [];
  }

  lemma LoopBatch(w: World)
    requires w.verdict(0, 1) == Fail
    ensures Shape(Loop(), Init(Loop())) && InRange(Loop(), [Start(0), Done(0)])
    ensures Play(Loop(), w, Init(Loop()), [Start(0), Done(0)]) == LoopEnd()
  {
    var g := Loop();
    PlayTwo(g, w, Init(g), Start(0), Done(0));
    var t := Play(g, w, Init(g), [Start(0), Done(0)]);
    var e := LoopEnd();
    assert t.seen[0] == e.seen[0];
    assert t.fired == e.fired && t.outcomes == e.outcomes && t.seen == e.seen && t.phase == e.phase;
  }

  lemma LoopPicks()
    requires ValidGraph(Loop())
    ensures Shape(Loop(), Init(Loop())) && Shape(Loop(), LoopEnd())
    ensures Runnable(Loop(), Init(Loop()), Loop().Size()) == [0] && Runnable(Loop(), LoopEnd(), Loop().Size()) == []
  {
    LoopRunnable(Init(Loop()));
    LoopRunnable(LoopEnd());
  }

  /** A failing check with a fail edge to itself is given one attempt of its three: its own edge fires, and
    still nothing is runnable. */
  lemma SelfRetryNeverHappens(w: World)
    requires w.verdict(0, 1) == Fail
    ensures ValidGraph(Loop()) && Run(Loop(), w, 24) == LoopEnd()
  {
    hide Run, RunFrom, ValidGraph, Inv, Shape, AllIdle, Runnable, Play, Apply, BatchOps, Batch, LoopEnd, IsRunnable;
    LoopIsValid();
    InitInv(Loop());
    LoopPicks();
    LoopSizes();
    CheckBatch(Loop(), w, Init(Loop()).attempts, 0);
    LoopBatch(w);
    LoopLast(w, Loop(), Init(Loop()), LoopEnd());
  }

  lemma LoopSizes()
    ensures Loop().Size() == 1 && |Init(Loop()).attempts| == 1 && Loop().nodes[0].kind.Inline()
  {
  }

  lemma LoopLast(w: World, g: Graph, s: State, t: State)
    requires g == Loop() && ValidGraph(g) && s == Init(g) && Inv(g, s) && AllIdle(g, s) && Shape(g, t)
    requires Runnable(g, s, g.Size()) == [0] && Runnable(g, t, g.Size()) == []
    requires BatchOps(g, w, s.attempts, [0]) == [Start(0), Done(0)]
    requires InRange(g, [Start(0), Done(0)]) && Play(g, w, s, [Start(0), Done(0)]) == t
    ensures Run(g, w, 24) == t
  {
    hide Play, Runnable, BatchOps, ValidGraph, RunFrom, Batch, Inv, Shape, AllIdle;
    assert Below([0], g.Size());
    Turn(g, w, 24, s, [0], t);
    Stops(g, w, 24, t);
  }

  // ---------------------------------------------------------------- two agents sent back together

  /** A writer, an editor fed by it, and a check that fails back to both. */
  function Duo(): Graph {
    Graph([Node(Agent, None), Node(Agent, None), Node(Check, None)],
          [Edge(0, 1, OnAlways, false), Edge(1, 2, OnAlways, false), Edge(2, 0, OnFail, true), Edge(2, 1, OnFail, true)],
          None)
  }

  lemma DuoForward(arcs: seq<Arc>, marks: seq<bool>)
    requires arcs == [(0, 1), (1, 2), (2, 0), (2, 1)] && marks == [false, false, true, true]
    ensures Forward(arcs[..0], marks[..0]) == [] && Forward(arcs[..1], marks[..1]) == arcs[..1]
    ensures Forward(arcs[..2], marks[..2]) == arcs[..2] && Forward(arcs[..3], marks[..3]) == arcs[..2]
  {
    assert arcs[..1][..0] == arcs[..0] && marks[..1][..0] == marks[..0];
    assert arcs[..2][..1] == arcs[..1] && marks[..2][..1] == marks[..1];
    assert arcs[..3][..2] == arcs[..2] && marks[..3][..2] == marks[..2];
  }

  lemma DuoPaths(arcs: seq<Arc>)
    requires arcs == [(0, 1), (1, 2), (2, 0), (2, 1)]
    ensures !Connects([], 1, 0) && !Connects(arcs[..1], 2, 1)
    ensures Connects(arcs[..2], 0, 2) && Connects(arcs[..2], 1, 2)
  {
    NoWayBack([], 1, 0);
    NoWayBack(arcs[..1], 2, 1);
    assert arcs[..2][0] == (0, 1) && arcs[..2][1] == (1, 2);
    ConnectsSelf(arcs[..2], 1);
    ConnectsSelf(arcs[..2], 0);
    ConnectsStep(arcs[..2], 0, 0, 1);
    ConnectsStep(arcs[..2], 0, 1, 2);
    ConnectsStep(arcs[..2], 1, 1, 2);
  }

  lemma GreedyFour(arcs: seq<Arc>, marks: seq<bool>)
    requires |arcs| == |marks| == 4
    requires marks[0] == Connects(Forward(arcs[..0], marks[..0]), arcs[0].1, arcs[0].0)
    requires marks[1] == Connects(Forward(arcs[..1], marks[..1]), arcs[1].1, arcs[1].0)
    requires marks[2] == Connects(Forward(arcs[..2], marks[..2]), arcs[2].1, arcs[2].0)
    requires marks[3] == Connects(Forward(arcs[..3], marks[..3]), arcs[3].1, arcs[3].0)
    ensures Greedy(arcs, marks)
  {
    hide Connects, Forward;
    forall k | 0 <= k < |arcs|
      ensures marks[k] == Connects(Forward(arcs[..k], marks[..k]), arcs[k].1, arcs[k].0)
    {
      assert k == 0 || k == 1 || k == 2 || k == 3;
    }
  }

  lemma DuoIsValid()
    ensures ValidGraph(Duo())
  {
    hide Connects, Forward, IsPath, Greedy;
    var arcs, marks := Arcs(Duo().edges), Marks(Duo().edges);
    DuoForward(arcs, marks);
    DuoPaths(arcs);
    GreedyFour(arcs, marks);
  }

  /** What is runnable in the duo, read off its edges. */
  lemma DuoRunnable(s: State)
    requires ValidGraph(Duo()) && Shape(Duo(), s)
    ensures IsRunnable(Duo(), s, 0) <==>
      s.attempts[0] < 3 && (s.scheduled[0] == 0 || s.fired[2] > s.scheduled[0])
    ensures IsRunnable(Duo(), s, 1) <==>
      && s.attempts[1] < 3 && s.outcomes[0].Some?
      && (s.scheduled[1] == 0 || s.completed[0] > s.scheduled[1] || s.fired[3] > s.scheduled[1])
    ensures IsRunnable(Duo(), s, 2) <==>
      s.attempts[2] < 3 && s.outcomes[1].Some? && (s.scheduled[2] == 0 || s.completed[1] > s.scheduled[2])
  {
    var g := Duo();
    assert forall k: nat, i: nat :: g.Gate(k, i) <==> (k == 0 && i == 1) || (k == 1 && i == 2);
    assert g.Gate(0, 1) && g.Gate(1, 2);
    assert Rollback(g, s, 0) <==> s.fired[2] > s.scheduled[0];
    assert Rollback(g, s, 1) <==> s.fired[3] > s.scheduled[1];
    assert FreshInput(g, s, 1) <==> s.completed[0] > s.scheduled[1];
    assert FreshInput(g, s, 2) <==> s.completed[1] > s.scheduled[2];
  }

  lemma DuoPick(s: State)
    requires ValidGraph(Duo()) && Shape(Duo(), s)
    ensures Runnable(Duo(), s, 3) ==
      (if IsRunnable(Duo(), s, 0) then [0] else []) + (if IsRunnable(Duo(), s, 1) then [1] else [])
      + (if IsRunnable(Duo(), s, 2) then [2] else [])
  {
    hide IsRunnable;
    var g := Duo();
    assert Runnable(g, s, 0) == [];
    assert Runnable(g, s, 1) == if IsRunnable(g, s, 0) then [0] else [];
    assert Runnable(g, s, 2) == Runnable(g, s, 1) + if IsRunnable(g, s, 1) then [1] else [];
  }

  /** The states between the batches when the check fails once. */
  function DuoAt(k: nat): State {
    var idle := [Idle, Idle, Idle];
    if k == 0 then
      State([None, None, None], [0, 0, 0], [0, 0, 0], [0, 0, 0], [0, 0, 0, 0], 0, 0,
            [[0, 0, 0], [0, 0, 0], [0, 0, 0]], idle)
    else if k == 1 then
      State([Some(Pass), None, None], [1, 0, 0], [1, 0, 0], [1, 0, 0], [1, 0, 0, 0], 1, 1,
            [[0, 0, 0], [0, 0, 0], [0, 0, 0]], idle)
    else if k == 2 then
      State([Some(Pass), Some(Pass), None], [1, 1, 0], [1, 2, 0], [1, 2, 0], [1, 2, 0, 0], 2, 2,
            [[0, 0, 0], [1, 0, 0], [0, 0, 0]], idle)
    else if k == 3 then
      State([Some(Pass), Some(Pass), Some(Fail)], [1, 1, 1], [1, 2, 3], [1, 2, 3], [1, 2, 3, 3], 3, 3,
            [[0, 0, 0], [1, 0, 0], [1, 2, 0]], idle)
    else if k == 4 then
      State([Some(Pass), Some(Pass), Some(Fail)], [2, 2, 1], [4, 4, 3], [4, 5, 3], [4, 5, 3, 3], 5, 5,
            [[1, 2, 3], [1, 2, 3], [1, 2, 0]], idle)
    else
      State([Some(Pass), Some(Pass), Some(Pass)], [2, 2, 2], [4, 4, 6], [4, 5, 6], [4, 5, 3, 3], 6, 6,
            [[1, 2, 3], [1, 2, 3], [4, 5, 3]], idle)
  }

  ghost predicate DuoWorld(w: World) {
    (forall i, a :: w.starts(i, a)) && forall i, a :: w.verdict(i, a) == if i == 2 && a == 1 then Fail else Pass
  }

  lemma DuoShape(k: nat)
    ensures Shape(Duo(), DuoAt(k))
  {
  }

  lemma DuoFacts(k: nat)
    requires k <= 4
    ensures Shape(Duo(), DuoAt(k)) && DuoAt(k).steps < 24 && |DuoAt(k).attempts| == 3
    ensures Duo().Size() == 3 && Duo().nodes == [Node(Agent, None), Node(Agent, None), Node(Check, None)]
  {
  }

  /** The first two states once their agent's prompt is rendered. */
  function DuoMid(k: nat): State {
    var zeros := [0, 0, 0];
    if k == 0 then
      State([None, None, None], [1, 0, 0], [1, 0, 0], zeros, [0, 0, 0, 0], 0, 1, [zeros, zeros, zeros], [Working, Idle, Idle])
    else
      State([Some(Pass), None, None], [1, 1, 0], [1, 2, 0], [1, 0, 0], [1, 0, 0, 0], 1, 2, [zeros, [1, 0, 0], zeros],
            [Idle, Working, Idle])
  }

  lemma DuoRendered(w: World, k: nat)
    requires k <= 1
    ensures Shape(Duo(), DuoAt(k)) && Shape(Duo(), Apply(Duo(), w, DuoAt(k), Start(k)))
    ensures Apply(Duo(), w, Apply(Duo(), w, DuoAt(k), Start(k)), Render(k)) == DuoMid(k)
  {
    var t := Apply(Duo(), w, Apply(Duo(), w, DuoAt(k), Start(k)), Render(k));
    assert t.attempts == DuoMid(k).attempts && t.scheduled == DuoMid(k).scheduled;
    assert t.seen == DuoMid(k).seen && t.phase == DuoMid(k).phase;
  }

  lemma DuoReturned(w: World, k: nat)
    requires k <= 1 && DuoWorld(w)
    ensures Shape(Duo(), DuoMid(k)) && Apply(Duo(), w, DuoMid(k), Done(k)) == DuoAt(k + 1)
  {
    var t, e := Apply(Duo(), w, DuoMid(k), Done(k)), DuoAt(k + 1);
    assert t.fired == e.fired && t.outcomes == e.outcomes && t.completed == e.completed && t.phase == e.phase;
  }

  lemma DuoAgent(w: World, k: nat)
    requires DuoWorld(w) && k <= 1
    ensures Shape(Duo(), DuoAt(k)) && InRange(Duo(), [Start(k), Render(k), Done(k)])
    ensures Play(Duo(), w, DuoAt(k), [Start(k), Render(k), Done(k)]) == DuoAt(k + 1)
  {
    hide Play, Apply, DuoAt, DuoMid, Shape;
    DuoRendered(w, k);
    DuoReturned(w, k);
    PlayThree(Duo(), w, DuoAt(k), Start(k), Render(k), Done(k));
  }

  lemma DuoCheck(w: World, k: nat)
    requires DuoWorld(w) && k in {2, 4}
    ensures Shape(Duo(), DuoAt(k)) && InRange(Duo(), [Start(2), Done(2)])
    ensures Play(Duo(), w, DuoAt(k), [Start(2), Done(2)]) == DuoAt(k + 1)
  {
    PlayTwo(Duo(), w, DuoAt(k), Start(2), Done(2));
    var t := Play(Duo(), w, DuoAt(k), [Start(2), Done(2)]);
    var e := DuoAt(k + 1);
    assert t.fired == e.fired && t.outcomes == e.outcomes && t.seen == e.seen && t.phase == e.phase;
  }

  lemma DuoBoth(w: World)
    requires DuoWorld(w)
    ensures Shape(Duo(), DuoAt(3))
    ensures var ops := [Start(0), Start(1), Render(0)] + [Render(1), Done(0), Done(1)];
      InRange(Duo(), ops) && Play(Duo(), w, DuoAt(3), ops) == DuoAt(4)
  {
    var g := Duo();
    PlayThree(g, w, DuoAt(3), Start(0), Start(1), Render(0));
    var m := State([Some(Pass), Some(Pass), Some(Fail)], [2, 2, 1], [4, 4, 3], [1, 2, 3], [1, 2, 3, 3], 3, 5,
                   [[1, 2, 3], [1, 2, 3], [1, 2, 0]], [Working, Waiting, Idle]);
    var t := Play(g, w, DuoAt(3), [Start(0), Start(1), Render(0)]);
    assert t.attempts == m.attempts && t.scheduled == m.scheduled && t.seen == m.seen && t.phase == m.phase;
    DuoJoin(w, m);
    PlayConcat(g, w, DuoAt(3), [Start(0), Start(1), Render(0)], [Render(1), Done(0), Done(1)]);
  }

  lemma DuoJoin(w: World, m: State)
    requires DuoWorld(w)
    requires m == State([Some(Pass), Some(Pass), Some(Fail)], [2, 2, 1], [4, 4, 3], [1, 2, 3], [1, 2, 3, 3], 3, 5,
                        [[1, 2, 3], [1, 2, 3], [1, 2, 0]], [Working, Waiting, Idle])
    ensures Shape(Duo(), m) && InRange(Duo(), [Render(1), Done(0), Done(1)])
    ensures Play(Duo(), w, m, [Render(1), Done(0), Done(1)]) == DuoAt(4)
  {
    PlayThree(Duo(), w, m, Render(1), Done(0), Done(1));
    var t, e := Play(Duo(), w, m, [Render(1), Done(0), Done(1)]), DuoAt(4);
    assert t.outcomes == e.outcomes && t.completed == e.completed && t.fired == e.fired && t.seen == e.seen
      && t.phase == e.phase;
  }

  lemma DuoCan(k: nat)
    requires ValidGraph(Duo()) && k <= 5
    ensures Shape(Duo(), DuoAt(k))
    ensures IsRunnable(Duo(), DuoAt(k), 0) == (k == 0 || k == 3)
    ensures IsRunnable(Duo(), DuoAt(k), 1) == (k == 1 || k == 3)
    ensures IsRunnable(Duo(), DuoAt(k), 2) == (k == 2 || k == 4)
  {
    hide IsRunnable, ValidGraph;
    DuoShape(k);
    DuoRunnable(DuoAt(k));
  }

  /** The batch each of the first five states picks, and that the last picks none. */
  lemma DuoPicks(k: nat)
    requires ValidGraph(Duo()) && k <= 5
    ensures Shape(Duo(), DuoAt(k))
    ensures Runnable(Duo(), DuoAt(k), 3) ==
      if k == 0 then [0] else if k == 1 then [1] else if k == 2 || k == 4 then [2] else if k == 3 then [0, 1] else []
  {
    hide IsRunnable, ValidGraph, DuoAt, Runnable, Duo;
    DuoCan(k);
    DuoPick(DuoAt(k));
  }

  lemma DuoAgentTurn(w: World, k: nat)
    requires ValidGraph(Duo()) && DuoWorld(w) && k <= 1
    requires Inv(Duo(), DuoAt(k)) && AllIdle(Duo(), DuoAt(k))
    ensures Inv(Duo(), DuoAt(k + 1)) && AllIdle(Duo(), DuoAt(k + 1))
    ensures RunFrom(Duo(), w, 24, DuoAt(k)) == RunFrom(Duo(), w, 24, DuoAt(k + 1))
  {
    hide ValidGraph, Inv, Shape, AllIdle, Runnable, IsRunnable, Apply, Play, BatchOps, RunFrom, DuoAt, Batch, Duo;
    var g, s := Duo(), DuoAt(k);
    DuoFacts(k);
    DuoPicks(k);
    AgentBatch(g, w, s.attempts, k);
    DuoAgent(w, k);
    Turn(g, w, 24, s, [k], DuoAt(k + 1));
  }

  lemma DuoBothTurn(w: World)
    requires ValidGraph(Duo()) && DuoWorld(w)
    requires Inv(Duo(), DuoAt(3)) && AllIdle(Duo(), DuoAt(3))
    ensures Inv(Duo(), DuoAt(4)) && AllIdle(Duo(), DuoAt(4))
    ensures RunFrom(Duo(), w, 24, DuoAt(3)) == RunFrom(Duo(), w, 24, DuoAt(4))
  {
    hide ValidGraph, Inv, Shape, AllIdle, Runnable, IsRunnable, Apply, Play, BatchOps, RunFrom, DuoAt, Batch, Duo;
    var g, s := Duo(), DuoAt(3);
    DuoFacts(3);
    DuoPicks(3);
    TwoAgentsBatch(g, w, s.attempts, 0, 1);
    DuoBoth(w);
    Turn(g, w, 24, s, [0, 1], DuoAt(4));
  }

  lemma DuoCheckTurn(w: World, k: nat)
    requires ValidGraph(Duo()) && DuoWorld(w) && (k == 2 || k == 4)
    requires Inv(Duo(), DuoAt(k)) && AllIdle(Duo(), DuoAt(k))
    ensures Inv(Duo(), DuoAt(k + 1)) && AllIdle(Duo(), DuoAt(k + 1))
    ensures RunFrom(Duo(), w, 24, DuoAt(k)) == RunFrom(Duo(), w, 24, DuoAt(k + 1))
  {
    hide ValidGraph, Inv, Shape, AllIdle, Runnable, IsRunnable, Apply, Play, BatchOps, RunFrom, DuoAt, Batch, Duo;
    var g, s := Duo(), DuoAt(k);
    DuoFacts(k);
    DuoPicks(k);
    CheckBatch(g, w, s.attempts, 2);
    DuoCheck(w, k);
    Turn(g, w, 24, s, [2], DuoAt(k + 1));
  }

  /** Writer and editor are sent back in one batch; the run ends with everything passed, nothing runnable and
    attempts to spare, the editor's last prompt still holding the writer's first outcome. */
  lemma EditorEndsStale(w: World)
    requires DuoWorld(w)
    ensures ValidGraph(Duo())
    ensures var t := Run(Duo(), w, 24);
      && t.steps == 6 && t.outcomes == [Some(Pass), Some(Pass), Some(Pass)] && t.attempts == [2, 2, 2]
      && Runnable(Duo(), t, 3) == [] && Duo().Gate(0, 1) && t.seen[1][0] == 1 && t.completed[0] == 4
  {
    DuoIsValid();
    InitInv(Duo());
    DuoStart();
    DuoEnd();
    RunIs(Duo(), w, 24);
    hide Run, Runnable, RunFrom, ValidGraph, DuoAt, Inv, AllIdle, Batch, IsRunnable, DuoWorld;
    DuoAgentTurn(w, 0);
    DuoAgentTurn(w, 1);
    DuoCheckTurn(w, 2);
    DuoBothTurn(w);
    DuoCheckTurn(w, 4);
    DuoPicks(5);
    Stops(Duo(), w, 24, DuoAt(5));
  }

  lemma RunIs(g: Graph, w: World, maxSteps: nat)
    requires ValidGraph(g)
    ensures Inv(g, Init(g)) && AllIdle(g, Init(g)) && Run(g, w, maxSteps) == RunFrom(g, w, maxSteps, Init(g))
  {
    InitInv(g);
  }

  lemma DuoStart()
    ensures Init(Duo()) == DuoAt(0)
  {
    var s, e := Init(Duo()), DuoAt(0);
    assert Zeros(3) == [0, 0, 0] && Zeros(4) == [0, 0, 0, 0];
    assert s.seen == e.seen && s.phase == e.phase && s.outcomes == e.outcomes;
  }

  lemma DuoEnd()
    ensures var t := DuoAt(5);
      && t.steps == 6 && t.outcomes == [Some(Pass), Some(Pass), Some(Pass)] && t.attempts == [2, 2, 2]
      && |t.seen| == 3 && |t.seen[1]| == 3 && t.seen[1][0] == 1 && |t.completed| == 3 && t.completed[0] == 4
    ensures Duo().Gate(0, 1)
  {
  }

  lemma Stops(g: Graph, w: World, maxSteps: nat, s: State)
    requires ValidGraph(g) && Inv(g, s) && AllIdle(g, s) && Runnable(g, s, g.Size()) == []
    ensures RunFrom(g, w, maxSteps, s) == s
  {
  }
}
