/** The order in which the nodes of one batch finish. */
module GraphOrder {
  import opened Scheduler
  import opened GraphRun

  /** The nodes that finish in a stretch, in the order they do. */
  function Finishers(ops: seq<Op>): (r: seq<nat>) {
    if ops == [] then []
    else
      var rest, last := Finishers(ops[..|ops| - 1]), ops[|ops| - 1];
      if last.Done? then rest + [last.node] else rest
  }

  lemma {:induction false} FinishersConcat(a: seq<Op>, b: seq<Op>)
    ensures Finishers(a + b) == Finishers(a) + Finishers(b)
    decreases |b|
  {
    if b == [] {
      assert a + b == a;
    } else {
      var init := b[..|b| - 1];
      FinishersConcat(a, init);
      assert (a + b)[..|a + b| - 1] == a + init;
    }
  }

  /** Each takes the next number of the clock. */
  lemma {:induction false} FinishedAt(g: Graph, w: World, s: State, ops: seq<Op>, x: nat)
    requires Shape(g, s) && InRange(g, ops) && x < |Finishers(ops)| && Finishers(ops)[x] < g.Size()
    requires forall y :: x < y < |Finishers(ops)| ==> Finishers(ops)[y] != Finishers(ops)[x]
    ensures Play(g, w, s, ops).completed[Finishers(ops)[x]] == s.epoch + x + 1
    decreases |ops|
  {
    var init, last := ops[..|ops| - 1], ops[|ops| - 1];
    var rest, all := Finishers(init), Finishers(ops);
    EpochIs(g, w, s, init);
    if x < |rest| {
      assert forall y :: 0 <= y < |rest| ==> rest[y] == all[y];
      FinishedAt(g, w, s, init, x);
      assert last.Done? ==> all[|rest|] == last.node;
    }
  }

  lemma {:induction false} EpochIs(g: Graph, w: World, s: State, ops: seq<Op>)
    requires Shape(g, s) && InRange(g, ops)
    ensures Play(g, w, s, ops).epoch == s.epoch + |Finishers(ops)|
    decreases |ops|
  {
    if ops != [] {
      EpochIs(g, w, s, ops[..|ops| - 1]);
    }
  }

  /** Which stretch of the batch a node finishes in. */
  function Turn(g: Graph, w: World, attempts: seq<nat>, i: nat): nat
    requires |attempts| == g.Size() && i < g.Size()
  {
    match g.nodes[i].kind
    case Agent => if w.starts(i, attempts[i]) then 2 else 1
    case Select => 3
    case _ => 0
  }

  predicate Before(g: Graph, w: World, attempts: seq<nat>, i: nat, j: nat)
    requires |attempts| == g.Size() && i < g.Size() && j < g.Size()
  {
    Turn(g, w, attempts, i) < Turn(g, w, attempts, j) || (Turn(g, w, attempts, i) == Turn(g, w, attempts, j) && i < j)
  }

  ghost predicate InTurn(g: Graph, w: World, attempts: seq<nat>, nodes: seq<nat>)
    requires |attempts| == g.Size() && Below(nodes, g.Size())
  {
    forall x, y :: 0 <= x < y < |nodes| ==> Before(g, w, attempts, nodes[x], nodes[y])
  }

  lemma StartOne(g: Graph, b: seq<nat>, rest: seq<nat>, i: nat)
    requires Below(b, g.Size()) && b == rest + [i]
    ensures Below(rest, g.Size()) && i < g.Size()
    ensures StartOps(g, b) == StartOps(g, rest) + if g.Par(i) then [Start(i)] else [Start(i), Done(i)]
  {
    assert b[..|b| - 1] == rest && b[|rest|] == i;
  }

  lemma LaunchOne(w: World, a: seq<nat>, b: seq<nat>, rest: seq<nat>, i: nat)
    requires Below(b, |a|) && b == rest + [i]
    ensures Below(rest, |a|) && i < |a|
    ensures LaunchOps(w, a, b) == LaunchOps(w, a, rest) + if w.starts(i, a[i]) then [Render(i)] else [Render(i), Done(i)]
  {
    assert b[..|b| - 1] == rest && b[|rest|] == i;
  }

  lemma {:induction false} StartFinishers(g: Graph, b: seq<nat>)
    requires Below(b, g.Size()) && Ascending(b)
    ensures var f := Finishers(StartOps(g, b)); Ascending(f) && forall i :: i in f <==> i in b && i < g.Size() && !g.Par(i)
    decreases |b|
  {
    hide Finishers, StartOps, Below, Ascending;
    NoFinishers(g);
    if b != [] {
      var rest, i := SplitBelow(b, g.Size());
      StartFinishers(g, rest);
      StartOne(g, b, rest, i);
      FinishersConcat(StartOps(g, rest), if g.Par(i) then [Start(i)] else [Start(i), Done(i)]);
      OneStart(i);
      MoreFinishers(Finishers(StartOps(g, rest)), rest, i, !g.Par(i));
      assert forall x :: x in b <==> x in rest || x == i;
    }
  }

  lemma SplitBelow(b: seq<nat>, n: nat) returns (rest: seq<nat>, i: nat)
    requires b != [] && Ascending(b) && Below(b, n)
    ensures b == rest + [i] && Ascending(rest) && Below(rest, n) && i < n
  {
    rest, i := b[..|b| - 1], b[|b| - 1];
  }

  lemma NoFinishers(g: Graph)
    ensures Ascending([]) && StartOps(g, []) == [] && Finishers([]) == []
  {
  }

  lemma NoLaunches(w: World, attempts: seq<nat>)
    ensures Ascending([]) && LaunchOps(w, attempts, []) == [] && Finishers([]) == []
  {
  }

  lemma MoreFinishers(f: seq<nat>, rest: seq<nat>, i: nat, adds: bool)
    requires Ascending(f) && Ascending(rest + [i]) && forall x :: x in f ==> x in rest
    ensures f + [] == f
    ensures var more := f + if adds then [i] else []; Ascending(more) && forall x :: x in more <==> x in f || (adds && x == i)
  {
    if adds {
      AscendingSnoc(f, rest, i);
    }
  }

  lemma OneStart(i: nat)
    ensures Finishers([Start(i)]) == [] && Finishers([Start(i), Done(i)]) == [i]
    ensures Finishers([Render(i)]) == [] && Finishers([Render(i), Done(i)]) == [i]
  {
    assert [Start(i)][..0] == [] && [Start(i), Done(i)][..1] == [Start(i)];
    assert [Render(i)][..0] == [] && [Render(i), Done(i)][..1] == [Render(i)];
  }

  lemma {:induction false} LaunchFinishers(w: World, attempts: seq<nat>, b: seq<nat>)
    requires Below(b, |attempts|) && Ascending(b)
    ensures var f := Finishers(LaunchOps(w, attempts, b));
      Ascending(f) && forall i: nat :: i in f <==> i in b && i < |attempts| && !w.starts(i, attempts[i])
    decreases |b|
  {
    hide Finishers, LaunchOps, Below, Ascending;
    NoLaunches(w, attempts);
    if b != [] {
      var rest, i := SplitBelow(b, |attempts|);
      LaunchFinishers(w, attempts, rest);
      LaunchOne(w, attempts, b, rest, i);
      FinishersConcat(LaunchOps(w, attempts, rest), if w.starts(i, attempts[i]) then [Render(i)] else [Render(i), Done(i)]);
      OneStart(i);
      MoreFinishers(Finishers(LaunchOps(w, attempts, rest)), rest, i, !w.starts(i, attempts[i]));
      assert forall x :: x in b <==> x in rest || x == i;
    }
  }

  lemma {:induction false} OthersFinishers(b: seq<nat>)
    ensures Finishers(RenderOps(b)) == [] && Finishers(DoneOps(b)) == b
  {
    if b != [] {
      var rest, last := b[..|b| - 1], b[|b| - 1];
      OthersFinishers(rest);
      assert RenderOps(b)[..|b| - 1] == RenderOps(rest) && DoneOps(b)[..|b| - 1] == DoneOps(rest);
      assert b == rest + [last];
    }
  }

  lemma BatchFinishers(g: Graph, w: World, attempts: seq<nat>, b: seq<nat>)
    requires Below(b, g.Size()) && Ascending(b) && |attempts| == g.Size()
    ensures var after := Bumped(attempts, b);
      var selects, agents := OfKind(g, b, Select), OfKind(g, b, Agent);
      Finishers(BatchOps(g, w, attempts, b)) ==
        Finishers(StartOps(g, b)) + Finishers(LaunchOps(w, after, agents)) + Launched(w, after, agents) + selects
  {
    hide Finishers, StartOps, LaunchOps, RenderOps, DoneOps, OfKind, Launched;
    var after := Bumped(attempts, b);
    var selects, agents := OfKind(g, b, Select), OfKind(g, b, Agent);
    var launched := Launched(w, after, agents);
    OthersFinishers(selects);
    OthersFinishers(launched);
    var ops := StartOps(g, b);
    FinishersConcat(ops, RenderOps(selects));
    ops := ops + RenderOps(selects);
    FinishersConcat(ops, LaunchOps(w, after, agents));
    ops := ops + LaunchOps(w, after, agents);
    FinishersConcat(ops, DoneOps(launched));
    ops := ops + DoneOps(launched);
    FinishersConcat(ops, DoneOps(selects));
  }

  /** Four ascending stretches of rising turns are in turn. */
  lemma JoinTurns(g: Graph, w: World, a: seq<nat>, inline: seq<nat>, failed: seq<nat>, launched: seq<nat>, selects: seq<nat>)
    requires |a| == g.Size() && Below(inline, |a|) && Below(failed, |a|) && Below(launched, |a|) && Below(selects, |a|)
    requires Ascending(inline) && Ascending(failed) && Ascending(launched) && Ascending(selects)
    requires forall i :: i in inline ==> Turn(g, w, a, i) == 0
    requires forall i :: i in failed ==> Turn(g, w, a, i) == 1
    requires forall i :: i in launched ==> Turn(g, w, a, i) == 2
    requires forall i :: i in selects ==> Turn(g, w, a, i) == 3
    ensures Below(inline + failed + launched + selects, |a|) && InTurn(g, w, a, inline + failed + launched + selects)
  {
    hide Turn;
    TwoTurns(g, w, a, inline, failed, 0);
    TwoTurns(g, w, a, inline + failed, launched, 1);
    TwoTurns(g, w, a, inline + failed + launched, selects, 2);
  }

  lemma TwoTurns(g: Graph, w: World, a: seq<nat>, front: seq<nat>, back: seq<nat>, turn: nat)
    requires |a| == g.Size() && Below(front, |a|) && Below(back, |a|)
    requires (turn == 0 && Ascending(front)) || InTurn(g, w, a, front)
    requires Ascending(back)
    requires forall i :: i in front ==> Turn(g, w, a, i) <= turn
    requires forall i :: i in back ==> Turn(g, w, a, i) == turn + 1
    ensures Below(front + back, |a|) && InTurn(g, w, a, front + back)
    ensures forall i :: i in front + back ==> Turn(g, w, a, i) <= turn + 1
  {
    hide Turn;
    var all := front + back;
    forall x, y | 0 <= x < y < |all|
      ensures Before(g, w, a, all[x], all[y])
    {
      assert all[x] in all && all[y] in all;
      assert x < |front| ==> all[x] in front;
      assert x >= |front| ==> all[x] in back;
      assert y < |front| ==> all[y] in front;
      assert y >= |front| ==> all[y] in back;
    }
  }

  lemma PartsInTurn(g: Graph, w: World, attempts: seq<nat>, b: seq<nat>)
    requires |attempts| == g.Size() && Below(b, g.Size()) && Ascending(b)
    ensures var after := Bumped(attempts, b);
      var selects, agents := OfKind(g, b, Select), OfKind(g, b, Agent);
      var inline, failed, launched := Finishers(StartOps(g, b)), Finishers(LaunchOps(w, after, agents)), Launched(w, after, agents);
      && (forall i: nat :: i in inline ==> i in b && Turn(g, w, after, i) == 0)
      && (forall i: nat :: i in failed ==> i in b && Turn(g, w, after, i) == 1)
      && (forall i: nat :: i in launched ==> i in b && Turn(g, w, after, i) == 2)
      && (forall i: nat :: i in selects ==> i in b && Turn(g, w, after, i) == 3)
      && (forall i: nat :: i in b ==> i in inline || i in failed || i in launched || i in selects)
      && Ascending(inline) && Ascending(failed) && Ascending(launched) && Ascending(selects)
  {
    hide Bumped, Finishers, StartOps, LaunchOps;
    var after := Bumped(attempts, b);
    var agents := OfKind(g, b, Agent);
    OfKindAscending(g, b, Agent);
    OfKindAscending(g, b, Select);
    LaunchedAscending(w, after, agents);
    StartFinishers(g, b);
    LaunchFinishers(w, after, agents);
    assert forall i: nat :: i in b ==> i < g.Size();
    hide OfKind, Launched, Ascending;
  }

  lemma BatchInTurn(g: Graph, w: World, attempts: seq<nat>, b: seq<nat>)
    requires |attempts| == g.Size() && Below(b, g.Size()) && Ascending(b)
    ensures var f := Finishers(BatchOps(g, w, attempts, b));
      && Below(f, g.Size()) && InTurn(g, w, Bumped(attempts, b), f) && forall i: nat :: i in b ==> i in f
  {
    hide Finishers, StartOps, LaunchOps, OfKind, Launched, BatchOps, Bumped, Ascending, InTurn, Turn;
    var after := Bumped(attempts, b);
    var selects, agents := OfKind(g, b, Select), OfKind(g, b, Agent);
    var inline, failed, launched := Finishers(StartOps(g, b)), Finishers(LaunchOps(w, after, agents)), Launched(w, after, agents);
    PartsInTurn(g, w, attempts, b);
    BatchFinishers(g, w, attempts, b);
    AllBelow(g, inline, b);
    AllBelow(g, failed, b);
    AllBelow(g, launched, b);
    AllBelow(g, selects, b);
    JoinTurns(g, w, after, inline, failed, launched, selects);
  }

  lemma AllBelow(g: Graph, part: seq<nat>, b: seq<nat>)
    requires Below(b, g.Size()) && forall i: nat :: i in part ==> i in b
    ensures Below(part, g.Size())
  {
    assert forall x :: 0 <= x < |part| ==> part[x] in part;
  }

  lemma OrderFromTurns(g: Graph, w: World, a: seq<nat>, s: State, ops: seq<Op>, i: nat, j: nat)
    requires Shape(g, s) && InRange(g, ops) && |a| == g.Size() && Below(Finishers(ops), g.Size())
    requires InTurn(g, w, a, Finishers(ops)) && i in Finishers(ops) && j in Finishers(ops)
    ensures i < g.Size() && j < g.Size()
    ensures var t := Play(g, w, s, ops); t.completed[i] < t.completed[j] <==> Before(g, w, a, i, j)
  {
    hide Play, Finishers, Turn;
    var f := Finishers(ops);
    var x :| 0 <= x < |f| && f[x] == i;
    var y :| 0 <= y < |f| && f[y] == j;
    assert forall p, q :: 0 <= p < q < |f| ==> f[p] != f[q];
    FinishedAt(g, w, s, ops, x);
    FinishedAt(g, w, s, ops, y);
  }

  /** The nodes of a batch finish one after another: checks and approvals as they are picked, then agents that can't
    start, then the agents that ran, then the selects, each of them in the order of the file. */
  lemma FinishOrder(g: Graph, w: World, s: State, i: nat, j: nat)
    requires ValidGraph(g) && Inv(g, s) && AllIdle(g, s)
    requires i in Runnable(g, s, g.Size()) && j in Runnable(g, s, g.Size())
    ensures i < g.Size() && j < g.Size()
    ensures var t := Batch(g, w, s); t.completed[i] < t.completed[j] <==> Before(g, w, t.attempts, i, j)
  {
    hide Counts, Clocked, GatesFirst, Shown, ShownFirings, AllIdle, Play, IsRunnable, BatchOps, Finishers, Before, InTurn, Bumped;
    var b := Runnable(g, s, g.Size());
    RunnableCanStart(g, s);
    hide CanStart;
    assert Below(b, g.Size());
    BatchIsLegal(g, w, s, b);
    BatchInTurn(g, w, s.attempts, b);
    hide Runnable;
    OrderFromTurns(g, w, Bumped(s.attempts, b), s, BatchOps(g, w, s.attempts, b), i, j);
  }
}
