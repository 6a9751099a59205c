/** Exactly when a node ends on input it was not shown: what each operation of a batch leaves in `seen`, and what
  becomes of an edge from a node to itself. */
module GraphSeen {
  import opened Plan
  import opened Scheduler
  import opened GraphRun

  // ---------------------------------------------------------------- what operations leave alone

  lemma {:induction false} Completes(g: Graph, w: World, s: State, ops: seq<Op>, f: nat)
    requires Shape(g, s) && InRange(g, ops) && f < g.Size()
    ensures var t := Play(g, w, s, ops);
      && t.epoch >= s.epoch
      && (if Done(f) in ops then t.completed[f] > s.epoch else t.completed[f] == s.completed[f])
    decreases |ops|
  {
    if ops != [] {
      Completes(g, w, s, ops[..|ops| - 1], f);
      assert ops == ops[..|ops| - 1] + [ops[|ops| - 1]];
    }
  }

  lemma {:induction false} Schedules(g: Graph, w: World, s: State, ops: seq<Op>, i: nat)
    requires Shape(g, s) && InRange(g, ops) && i < g.Size()
    ensures var t := Play(g, w, s, ops);
      && t.epoch >= s.epoch
      && (if Start(i) in ops then t.scheduled[i] > s.epoch else t.scheduled[i] == s.scheduled[i])
    decreases |ops|
  {
    if ops != [] {
      Schedules(g, w, s, ops[..|ops| - 1], i);
      assert ops == ops[..|ops| - 1] + [ops[|ops| - 1]];
    }
  }

  lemma {:induction false} SeenStays(g: Graph, w: World, s: State, ops: seq<Op>, i: nat)
    requires Shape(g, s) && InRange(g, ops) && i < g.Size() && Start(i) !in ops && Render(i) !in ops
    ensures Play(g, w, s, ops).seen[i] == s.seen[i]
    decreases |ops|
  {
    if ops != [] {
      var rest, last := ops[..|ops| - 1], ops[|ops| - 1];
      assert ops == rest + [last];
      SeenStays(g, w, s, rest, i);
      assert last != Start(last.node) || last.node != i;
      assert last != Render(last.node) || last.node != i;
    }
  }

  /** A node's last prompt shows what was completed when it was rendered. */
  lemma SeenIs(g: Graph, w: World, s: State, before: seq<Op>, after: seq<Op>, i: nat)
    requires Shape(g, s) && i < g.Size() && InRange(g, before) && InRange(g, after)
    requires Start(i) !in after && Render(i) !in after
    ensures InRange(g, before + [Render(i)] + after)
    ensures Play(g, w, s, before + [Render(i)] + after).seen[i] == Play(g, w, s, before).completed
  {
    PlaySnoc(g, w, s, before, Render(i));
    PlayConcat(g, w, s, before + [Render(i)], after);
    SeenStays(g, w, Play(g, w, s, before + [Render(i)]), after, i);
    hide Play;
  }

  /** So it shows another node's outcome of the same stretch if and only if that node finished before. */
  lemma ShownIfDoneBefore(g: Graph, w: World, s: State, before: seq<Op>, after: seq<Op>, i: nat, f: nat)
    requires Shape(g, s) && i < g.Size() && f < g.Size() && InRange(g, before) && InRange(g, after)
    requires Start(i) !in after && Render(i) !in after && s.completed[f] <= s.epoch
    requires if Done(f) in before then Done(f) !in after else Done(f) in after
    ensures InRange(g, before + [Render(i)] + after)
    ensures var t := Play(g, w, s, before + [Render(i)] + after); t.seen[i][f] == t.completed[f] <==> Done(f) in before
  {
    SeenIs(g, w, s, before, after, i);
    PlaySnoc(g, w, s, before, Render(i));
    PlayConcat(g, w, s, before + [Render(i)], after);
    Completes(g, w, s, before, f);
    Completes(g, w, Play(g, w, s, before + [Render(i)]), after, f);
    hide Play;
  }

  // ---------------------------------------------------------------- the order within a batch

  lemma {:induction false} StartOpsHold(g: Graph, b: seq<nat>, op: Op)
    requires Below(b, g.Size())
    ensures op in StartOps(g, b) <==>
      op.node in b && op.node < g.Size() && (op.Start? || (op.Done? && !g.Par(op.node)))
    decreases |b|
  {
    if b != [] {
      StartOpsHold(g, b[..|b| - 1], op);
      assert b == b[..|b| - 1] + [b[|b| - 1]];
    }
  }

  lemma RenderOpsHold(b: seq<nat>, op: Op)
    ensures op in RenderOps(b) <==> op.Render? && op.node in b
    ensures op in DoneOps(b) <==> op.Done? && op.node in b
  {
    if op.node in b {
      var x :| 0 <= x < |b| && b[x] == op.node;
      assert RenderOps(b)[x] == Render(op.node) && DoneOps(b)[x] == Done(op.node);
    }
  }

  lemma {:induction false} LaunchOpsHold(w: World, a: seq<nat>, b: seq<nat>, op: Op)
    requires Below(b, |a|)
    ensures op in LaunchOps(w, a, b) <==>
      op.node in b && op.node < |a| && (op.Render? || (op.Done? && !w.starts(op.node, a[op.node])))
    decreases |b|
  {
    if b != [] {
      LaunchOpsHold(w, a, b[..|b| - 1], op);
      assert b == b[..|b| - 1] + [b[|b| - 1]];
    }
  }

  lemma {:induction false} LaunchOpsConcat(w: World, a: seq<nat>, b: seq<nat>, c: seq<nat>)
    requires Below(b, |a|) && Below(c, |a|)
    ensures Below(b + c, |a|) && LaunchOps(w, a, b + c) == LaunchOps(w, a, b) + LaunchOps(w, a, c)
    decreases |c|
  {
    if c == [] {
      assert b + c == b;
    } else {
      var last := |c| - 1;
      LaunchOpsConcat(w, a, b, c[..last]);
      assert (b + c)[..|b + c| - 1] == b + c[..last];
    }
  }

  /** An ascending list around one of its members. */
  lemma Around(b: seq<nat>, i: nat) returns (low: seq<nat>, high: seq<nat>)
    requires Ascending(b) && i in b
    ensures b == low + [i] + high && i !in low && i !in high
    ensures forall f: nat :: f in low <==> f in b && f < i
    ensures forall f: nat :: f in high ==> f in b && f > i
  {
    var x :| 0 <= x < |b| && b[x] == i;
    low, high := b[..x], b[x + 1..];
    assert b == low + [i] + high;
    forall f: nat | f in b && f < i
      ensures f in low
    {
      var y :| 0 <= y < |b| && b[y] == f;
      assert y < x;
      assert low[y] == f;
    }
  }

  /** An agent that can't be started fails as it is launched, so the agents launched after it are shown that. */
  predicate FailsFirst(g: Graph, w: World, attempts: seq<nat>, f: nat, i: nat)
    requires f < g.Size() && i < g.Size() && |attempts| == g.Size()
  {
    FailedFirst(g, w, attempts[f], f, i)
  }

  /** The same of the source's `a`-th attempt. */
  predicate FailedFirst(g: Graph, w: World, a: nat, f: nat, i: nat)
    requires f < g.Size() && i < g.Size()
  {
    g.nodes[f].kind.Agent? && g.nodes[i].kind.Agent? && f < i && !w.starts(f, a)
  }

  /** The operations of a batch around the rendering of `i`. */
  ghost predicate Parts(g: Graph, w: World, a: seq<nat>, b: seq<nat>, ops: seq<Op>, i: nat, before: seq<Op>, after: seq<Op>)
    requires |a| == g.Size() && i < g.Size()
  {
    && ops == before + [Render(i)] + after && Start(i) !in after && Render(i) !in after
    && forall f: nat :: f in b && f < g.Size() && g.Par(f) ==>
         && (Done(f) in before <==> FailsFirst(g, w, a, f, i))
         && (Done(f) in before <==> Done(f) !in after)
  }

  lemma SelectParts(g: Graph, w: World, attempts: seq<nat>, b: seq<nat>, i: nat) returns (before: seq<Op>, after: seq<Op>)
    requires |attempts| == g.Size() && Below(b, g.Size()) && Ascending(b)
    requires i in b && i < g.Size() && g.nodes[i].kind.Select?
    ensures Parts(g, w, Bumped(attempts, b), b, BatchOps(g, w, attempts, b), i, before, after)
  {
    hide StartOps, LaunchOps, RenderOps, DoneOps, OfKind, Launched;
    var a, selects, agents := Bumped(attempts, b), OfKind(g, b, Select), OfKind(g, b, Agent);
    OfKindAscending(g, b, Select);
    var low, high := Around(selects, i);
    before := StartOps(g, b) + RenderOps(low);
    after := RenderOps(high) + LaunchOps(w, a, agents) + DoneOps(Launched(w, a, agents)) + DoneOps(selects);
    RenderAround(low, i, high);
    assert BatchOps(g, w, attempts, b) == before + [Render(i)] + after;
    forall op: Op
      ensures op in before <==> op in StartOps(g, b) || op in RenderOps(low)
      ensures op in after <==>
        (op in RenderOps(high) || op in LaunchOps(w, a, agents) || op in DoneOps(Launched(w, a, agents)) || op in DoneOps(selects))
      ensures op in StartOps(g, b) <==> op.node in b && op.node < g.Size() && (op.Start? || (op.Done? && !g.Par(op.node)))
      ensures op in LaunchOps(w, a, agents) <==>
        op.node in agents && op.node < |a| && (op.Render? || (op.Done? && !w.starts(op.node, a[op.node])))
      ensures op in RenderOps(low) <==> op.Render? && op.node in low
      ensures op in RenderOps(high) <==> op.Render? && op.node in high
      ensures op in DoneOps(selects) <==> op.Done? && op.node in selects
      ensures op in DoneOps(Launched(w, a, agents)) <==> op.Done? && op.node in Launched(w, a, agents)
    {
      StartOpsHold(g, b, op);
      LaunchOpsHold(w, a, agents, op);
      RenderOpsHold(low, op);
      RenderOpsHold(high, op);
      RenderOpsHold(selects, op);
      RenderOpsHold(Launched(w, a, agents), op);
    }
  }

  lemma RenderAround(low: seq<nat>, i: nat, high: seq<nat>)
    ensures RenderOps(low + [i] + high) == RenderOps(low) + [Render(i)] + RenderOps(high)
  {
  }

  lemma LaunchAround(w: World, a: seq<nat>, low: seq<nat>, i: nat, high: seq<nat>)
    requires Below(low, |a|) && i < |a| && Below(high, |a|)
    ensures Below(low + [i] + high, |a|)
    ensures LaunchOps(w, a, low + [i] + high) ==
      LaunchOps(w, a, low) + [Render(i)] + ((if w.starts(i, a[i]) then [] else [Done(i)]) + LaunchOps(w, a, high))
  {
    hide LaunchOps, Below;
    assert Below([i], |a|) by {
      BelowOne(i, |a|);
    }
    LaunchOpsConcat(w, a, low, [i]);
    LaunchOpsConcat(w, a, low + [i], high);
    LaunchOpsOne(w, a, i);
    Regroup(LaunchOps(w, a, low), Render(i), if w.starts(i, a[i]) then [] else [Done(i)], LaunchOps(w, a, high));
  }

  lemma BelowOne(i: nat, n: nat)
    requires i < n
    ensures Below([i], n)
  {
  }

  lemma Regroup(l: seq<Op>, op: Op, failed: seq<Op>, h: seq<Op>)
    ensures l + ([op] + failed) + h == l + [op] + (failed + h)
  {
  }

  lemma LaunchOpsOne(w: World, a: seq<nat>, i: nat)
    requires i < |a|
    ensures Below([i], |a|) && LaunchOps(w, a, [i]) == [Render(i)] + if w.starts(i, a[i]) then [] else [Done(i)]
  {
    var one: seq<nat> := [i];
    assert one[..0] == [] && LaunchOps(w, a, one[..0]) == [];
  }

  lemma AgentParts(g: Graph, w: World, attempts: seq<nat>, b: seq<nat>, i: nat) returns (before: seq<Op>, after: seq<Op>)
    requires |attempts| == g.Size() && Below(b, g.Size()) && Ascending(b)
    requires i in b && i < g.Size() && g.nodes[i].kind.Agent?
    ensures Parts(g, w, Bumped(attempts, b), b, BatchOps(g, w, attempts, b), i, before, after)
  {
    hide StartOps, LaunchOps, RenderOps, DoneOps, OfKind, Launched;
    var a, selects, agents := Bumped(attempts, b), OfKind(g, b, Select), OfKind(g, b, Agent);
    OfKindAscending(g, b, Agent);
    var low, high := Around(agents, i);
    var failed := if w.starts(i, a[i]) then [] else [Done(i)];
    assert Below(low, |a|) by {
      assert forall x :: 0 <= x < |low| ==> low[x] in low;
    }
    assert Below(high, |a|) by {
      assert forall x :: 0 <= x < |high| ==> high[x] in high;
    }
    LaunchAround(w, a, low, i, high);
    before := StartOps(g, b) + RenderOps(selects) + LaunchOps(w, a, low);
    after := failed + LaunchOps(w, a, high) + DoneOps(Launched(w, a, agents)) + DoneOps(selects);
    assert BatchOps(g, w, attempts, b) == before + [Render(i)] + after;
    forall op: Op
      ensures op in before <==> op in StartOps(g, b) || op in RenderOps(selects) || op in LaunchOps(w, a, low)
      ensures op in after <==>
        (op in failed || op in LaunchOps(w, a, high) || op in DoneOps(Launched(w, a, agents)) || op in DoneOps(selects))
      ensures op in StartOps(g, b) <==> op.node in b && op.node < g.Size() && (op.Start? || (op.Done? && !g.Par(op.node)))
      ensures op in LaunchOps(w, a, low) <==>
        op.node in low && op.node < |a| && (op.Render? || (op.Done? && !w.starts(op.node, a[op.node])))
      ensures op in LaunchOps(w, a, high) <==>
        op.node in high && op.node < |a| && (op.Render? || (op.Done? && !w.starts(op.node, a[op.node])))
      ensures op in RenderOps(selects) <==> op.Render? && op.node in selects
      ensures op in DoneOps(selects) <==> op.Done? && op.node in selects
      ensures op in DoneOps(Launched(w, a, agents)) <==> op.Done? && op.node in Launched(w, a, agents)
    {
      StartOpsHold(g, b, op);
      LaunchOpsHold(w, a, low, op);
      LaunchOpsHold(w, a, high, op);
      RenderOpsHold(selects, op);
      RenderOpsHold(Launched(w, a, agents), op);
    }
  }

  // ---------------------------------------------------------------- whole runs

  /** Between two background nodes, a completion at the very epoch the other was scheduled at was shown exactly when
    it was a failed launch before that one's. */
  ghost predicate TiesTold(g: Graph, w: World, s: State)
    requires Shape(g, s)
  {
    forall i: nat, f: nat :: i < g.Size() && f < g.Size() && g.Par(i) && g.Par(f) ==> TieTold(g, w, s, i, f)
  }

  ghost predicate TieTold(g: Graph, w: World, s: State, i: nat, f: nat)
    requires Shape(g, s) && i < g.Size() && f < g.Size()
  {
    s.attempts[i] > 0 && s.completed[f] == s.scheduled[i] ==>
      (s.seen[i][f] == s.completed[f] <==> FailsFirst(g, w, s.attempts, f, i))
  }

  lemma BatchTells(g: Graph, w: World, s: State, b: seq<nat>, i: nat, f: nat)
    requires ValidGraph(g) && Shape(g, s) && Below(b, g.Size()) && Ascending(b)
    requires i in b && f in b && i < g.Size() && f < g.Size() && g.Par(i) && g.Par(f) && s.completed[f] <= s.epoch
    ensures InRange(g, BatchOps(g, w, s.attempts, b))
    ensures var t := Play(g, w, s, BatchOps(g, w, s.attempts, b));
      t.seen[i][f] == t.completed[f] <==> FailsFirst(g, w, Bumped(s.attempts, b), f, i)
  {
    hide BatchOps, Play, Bumped;
    BatchInRange(g, w, s.attempts, b);
    var before, after;
    if g.nodes[i].kind.Select? {
      before, after := SelectParts(g, w, s.attempts, b, i);
    } else {
      before, after := AgentParts(g, w, s.attempts, b, i);
    }
    PartsInRange(g, BatchOps(g, w, s.attempts, b), before, Render(i), after);
    ShownIfDoneBefore(g, w, s, before, after, i, f);
  }

  lemma PartsInRange(g: Graph, ops: seq<Op>, before: seq<Op>, op: Op, after: seq<Op>)
    requires InRange(g, ops) && ops == before + [op] + after
    ensures InRange(g, before) && InRange(g, after)
  {
    forall x | 0 <= x < |after|
      ensures after[x].node < g.Size()
    {
      assert ops[|before| + 1 + x] == after[x];
    }
    forall x | 0 <= x < |before|
      ensures before[x].node < g.Size()
    {
      assert ops[x] == before[x];
    }
  }

  lemma BatchHolds(g: Graph, w: World, attempts: seq<nat>, b: seq<nat>, n: nat)
    requires |attempts| == g.Size() && Below(b, g.Size()) && n < g.Size()
    ensures Start(n) in BatchOps(g, w, attempts, b) <==> n in b
    ensures Render(n) in BatchOps(g, w, attempts, b) ==> n in b
    ensures Done(n) in BatchOps(g, w, attempts, b) <==> n in b
  {
    hide StartOps, LaunchOps, RenderOps, DoneOps, OfKind, Launched;
    var a, selects, agents := Bumped(attempts, b), OfKind(g, b, Select), OfKind(g, b, Agent);
    forall op: Op | op.node == n
      ensures op in BatchOps(g, w, attempts, b) <==>
        (op in StartOps(g, b) || op in RenderOps(selects) || op in LaunchOps(w, a, agents)
         || op in DoneOps(Launched(w, a, agents)) || op in DoneOps(selects))
      ensures op in StartOps(g, b) <==> n in b && (op.Start? || (op.Done? && !g.Par(n)))
      ensures op in LaunchOps(w, a, agents) <==> n in agents && (op.Render? || (op.Done? && !w.starts(n, a[n])))
      ensures op in RenderOps(selects) <==> op.Render? && n in selects
      ensures op in DoneOps(selects) <==> op.Done? && n in selects
      ensures op in DoneOps(Launched(w, a, agents)) <==> op.Done? && n in Launched(w, a, agents)
    {
      StartOpsHold(g, b, op);
      LaunchOpsHold(w, a, agents, op);
      RenderOpsHold(selects, op);
      RenderOpsHold(Launched(w, a, agents), op);
    }
    assert Start(n).node == n && Render(n).node == n && Done(n).node == n;
  }

  lemma BatchInRange(g: Graph, w: World, attempts: seq<nat>, b: seq<nat>)
    requires |attempts| == g.Size() && Below(b, g.Size())
    ensures InRange(g, BatchOps(g, w, attempts, b))
  {
    hide StartOps, RenderOps, DoneOps, OfKind, LaunchOps, Launched;
    var a, selects, agents := Bumped(attempts, b), OfKind(g, b, Select), OfKind(g, b, Agent);
    var ops := BatchOps(g, w, attempts, b);
    forall x | 0 <= x < |ops|
      ensures ops[x].node < g.Size()
    {
      var op := ops[x];
      assert op in StartOps(g, b) || op in RenderOps(selects) || op in LaunchOps(w, a, agents)
        || op in DoneOps(Launched(w, a, agents)) || op in DoneOps(selects);
      StartOpsHold(g, b, op);
      LaunchOpsHold(w, a, agents, op);
      RenderOpsHold(selects, op);
      RenderOpsHold(Launched(w, a, agents), op);
    }
  }

  lemma BatchKeepsTie(g: Graph, w: World, s: State, i: nat, f: nat)
    requires ValidGraph(g) && Inv(g, s) && AllIdle(g, s) && TiesTold(g, w, s)
    requires i < g.Size() && f < g.Size() && g.Par(i) && g.Par(f)
    ensures TieTold(g, w, Batch(g, w, s), i, f)
  {
    var b := Runnable(g, s, g.Size());
    var ops := BatchOps(g, w, s.attempts, b);
    assert s.completed[f] <= s.epoch && s.scheduled[i] <= s.completed[i] <= s.epoch && TieTold(g, w, s, i, f);
    hide Inv, AllIdle, TiesTold, Runnable, BatchOps, Play, Bumped;
    BatchIsLegal(g, w, s, b);
    BatchInRange(g, w, s.attempts, b);
    BatchHolds(g, w, s.attempts, b, i);
    BatchHolds(g, w, s.attempts, b, f);
    Completes(g, w, s, ops, f);
    Schedules(g, w, s, ops, i);
    BumpedAt(s.attempts, b, i);
    BumpedAt(s.attempts, b, f);
    if i in b && f in b {
      BatchTells(g, w, s, b, i, f);
    } else if i !in b {
      SeenStays(g, w, s, ops, i);
    }
  }

  lemma BumpedAt(attempts: seq<nat>, b: seq<nat>, i: nat)
    requires i < |attempts|
    ensures Bumped(attempts, b)[i] == if i in b then attempts[i] + 1 else attempts[i]
  {
  }

  lemma {:induction false} RunTells(g: Graph, w: World, maxSteps: nat, s: State)
    requires ValidGraph(g) && Inv(g, s) && AllIdle(g, s) && TiesTold(g, w, s)
    ensures TiesTold(g, w, RunFrom(g, w, maxSteps, s))
    decreases Sum(Caps(g)) - s.steps
  {
    hide Counts, Clocked, GatesFirst, Shown, ShownFirings, AllIdle, Batch, TieTold;
    if !(s.steps >= maxSteps || Runnable(g, s, g.Size()) == []) {
      StepsWithinCaps(g, s);
      StepsWithinCaps(g, Batch(g, w, s));
      forall i: nat, f: nat | i < g.Size() && f < g.Size() && g.Par(i) && g.Par(f)
        ensures TieTold(g, w, Batch(g, w, s), i, f)
      {
        BatchKeepsTie(g, w, s, i, f);
      }
      RunTells(g, w, maxSteps, Batch(g, w, s));
    }
  }

  /** Exactly what a run that left nothing to run leaves stale, for a node below its cap whose gates match: a gate
    between two background nodes whose source was the first of all to come back after the node started, unless
    the source was an agent that failed at its launch before the node's own. */
  lemma StaleIff(g: Graph, w: World, maxSteps: nat, i: nat, k: nat)
    requires ValidGraph(g) && Runnable(g, Run(g, w, maxSteps), g.Size()) == []
    requires var t := Run(g, w, maxSteps);
      i < g.Size() && t.attempts[i] < g.nodes[i].Cap() && Satisfied(g, t, i) && g.Gate(k, i)
    ensures var t, f := Run(g, w, maxSteps), g.edges[k].from;
      t.seen[i][f] != t.completed[f] <==>
        g.Par(i) && g.Par(f) && t.completed[f] == t.scheduled[i] && !FailsFirst(g, w, t.attempts, f, i)
  {
    var t, f := Run(g, w, maxSteps), g.edges[k].from;
    InitInv(g);
    RunTells(g, w, maxSteps, Init(g));
    Quiescent(g, t, i);
    hide Run, RunFrom, Runnable, Inv;
    assert g.Par(i) && g.Par(f) ==> TieTold(g, w, t, i, f);
  }

  // ---------------------------------------------------------------- edges from a node to itself

  /** A self-edge fired on the node's last outcome, or before its last start; a check or approval was shown its own
    outcome of before that start. */
  ghost predicate SelfFired(g: Graph, s: State)
    requires ValidGraph(g) && Shape(g, s)
  {
    && (forall k :: 0 <= k < |g.edges| && g.edges[k].from == g.edges[k].to && s.attempts[g.edges[k].to] > 0 ==>
          var i := g.edges[k].to;
          if s.phase[i].Idle? && s.outcomes[i].Some? && g.edges[k].on.Matches(s.outcomes[i].value)
          then s.fired[k] == s.completed[i] else s.fired[k] < s.scheduled[i])
    && (forall i :: 0 <= i < g.Size() && !g.Par(i) && s.attempts[i] > 0 ==> s.seen[i][i] < s.scheduled[i])
  }

  lemma StepKeepsSelfFired(g: Graph, w: World, s: State, op: Op)
    requires ValidGraph(g) && Inv(g, s) && SelfFired(g, s) && op.node < g.Size() && Legal(g, s, op)
    ensures Shape(g, Apply(g, w, s, op)) && SelfFired(g, Apply(g, w, s, op))
  {
    hide Counts, GatesFirst, Shown;
    ApplyShape(g, w, s, op);
  }

  lemma {:induction false} PlayKeepsSelfFired(g: Graph, w: World, s: State, ops: seq<Op>)
    requires ValidGraph(g) && Inv(g, s) && SelfFired(g, s) && LegalAll(g, w, s, ops)
    ensures SelfFired(g, Play(g, w, s, ops))
    decreases |ops|
  {
    hide Counts, Clocked, GatesFirst, Shown, ShownFirings, SelfFired, Legal;
    if ops != [] {
      var last := |ops| - 1;
      PlayKeepsInv(g, w, s, ops[..last]);
      PlayKeepsSelfFired(g, w, s, ops[..last]);
      StepKeepsSelfFired(g, w, Play(g, w, s, ops[..last]), ops[last]);
    }
  }

  lemma {:induction false} RunKeepsSelfFired(g: Graph, w: World, maxSteps: nat, s: State)
    requires ValidGraph(g) && Inv(g, s) && AllIdle(g, s) && SelfFired(g, s)
    ensures SelfFired(g, RunFrom(g, w, maxSteps, s))
    decreases Sum(Caps(g)) - s.steps
  {
    hide Counts, Clocked, GatesFirst, Shown, ShownFirings, SelfFired, AllIdle;
    if !(s.steps >= maxSteps || Runnable(g, s, g.Size()) == []) {
      StepsWithinCaps(g, s);
      StepsWithinCaps(g, Batch(g, w, s));
      RunnableCanStart(g, s);
      BatchIsLegal(g, w, s, Runnable(g, s, g.Size()));
      PlayKeepsSelfFired(g, w, s, BatchOps(g, w, s.attempts, Runnable(g, s, g.Size())));
      RunKeepsSelfFired(g, w, maxSteps, Batch(g, w, s));
    }
  }

  /** When an edge from a node to itself asks for a re-run: its condition matches and, as each completion takes the
    next epoch, another node finished after this one's last start and before it. */
  lemma SelfEdgeRefiresIff(g: Graph, w: World, maxSteps: nat, k: nat)
    requires ValidGraph(g) && k < |g.edges| && g.edges[k].from == g.edges[k].to
    requires Run(g, w, maxSteps).attempts[g.edges[k].to] > 0
    ensures var t, i := Run(g, w, maxSteps), g.edges[k].to;
      t.fired[k] > t.scheduled[i] <==>
        t.outcomes[i].Some? && g.edges[k].on.Matches(t.outcomes[i].value) && t.completed[i] > t.scheduled[i]
  {
    InitInv(g);
    RunKeepsSelfFired(g, w, maxSteps, Init(g));
    hide RunFrom, Counts, GatesFirst, Shown, ShownFirings;
  }

  function Dones(ops: seq<Op>): nat {
    if ops == [] then 0 else Dones(ops[..|ops| - 1]) + if ops[|ops| - 1].Done? then 1 else 0
  }

  lemma {:induction false} EpochCounts(g: Graph, w: World, s: State, ops: seq<Op>)
    requires Shape(g, s) && InRange(g, ops)
    ensures Play(g, w, s, ops).epoch == s.epoch + Dones(ops)
    ensures Dones(ops) > 0 <==> exists op :: op in ops && op.Done?
    decreases |ops|
  {
    if ops != [] {
      EpochCounts(g, w, s, ops[..|ops| - 1]);
      assert ops == ops[..|ops| - 1] + [ops[|ops| - 1]];
    }
  }

  lemma Untouched(g: Graph, w: World, s: State, ops: seq<Op>, i: nat)
    requires Shape(g, s) && InRange(g, ops) && i < g.Size() && Start(i) !in ops && Done(i) !in ops
    ensures var t := Play(g, w, s, ops); t.scheduled[i] == s.scheduled[i] && t.completed[i] == s.completed[i]
  {
    Completes(g, w, s, ops, i);
    Schedules(g, w, s, ops, i);
  }

  /** A node's completion takes a later epoch than the one it was scheduled at exactly when another finished after
    its last start and before its end. */
  lemma LaterIffAnotherFinished(g: Graph, w: World, s: State, before: seq<Op>, between: seq<Op>, after: seq<Op>, i: nat)
    requires Shape(g, s) && i < g.Size() && InRange(g, before) && InRange(g, between) && InRange(g, after)
    requires Start(i) !in between && Done(i) !in between && Start(i) !in after && Done(i) !in after
    ensures InRange(g, before + [Start(i)] + between + [Done(i)] + after)
    ensures var t := Play(g, w, s, before + [Start(i)] + between + [Done(i)] + after);
      t.completed[i] > t.scheduled[i] <==> exists op :: op in between && op.Done? && op.node != i
  {
    hide Play;
    var s1 := Play(g, w, s, before);
    PlaySnoc(g, w, s, before, Start(i));
    var s2 := Play(g, w, s, before + [Start(i)]);
    PlayConcat(g, w, s, before + [Start(i)], between);
    var s3 := Play(g, w, s, before + [Start(i)] + between);
    EpochCounts(g, w, s2, between);
    Untouched(g, w, s2, between, i);
    PlaySnoc(g, w, s, before + [Start(i)] + between, Done(i));
    PlayConcat(g, w, s, before + [Start(i)] + between + [Done(i)], after);
    Untouched(g, w, Play(g, w, s, before + [Start(i)] + between + [Done(i)]), after, i);
    assert forall op :: op in between && op.Done? ==> op == Done(op.node);
  }

  // ---------------------------------------------------------------- feedback edges

  lemma {:induction false} FiringStays(g: Graph, w: World, s: State, ops: seq<Op>, k: nat)
    requires Shape(g, s) && InRange(g, ops) && k < |g.edges| && Done(g.edges[k].from) !in ops
    ensures Play(g, w, s, ops).fired[k] == s.fired[k]
    decreases |ops|
  {
    if ops != [] {
      var rest, last := ops[..|ops| - 1], ops[|ops| - 1];
      assert ops == rest + [last];
      FiringStays(g, w, s, rest, k);
      assert last.Done? ==> last == Done(last.node);
    }
  }

  /** With no start of its source in between, an edge fires at its source's last completion or not at all. */
  lemma {:induction false} FiresOrNot(g: Graph, w: World, s: State, ops: seq<Op>, k: nat)
    requires Shape(g, s) && InRange(g, ops) && k < |g.edges| && g.edges[k].from < g.Size() && Start(g.edges[k].from) !in ops
    ensures var t, f := Play(g, w, s, ops), g.edges[k].from;
      && t.attempts[f] == s.attempts[f]
      && (t.fired[k] == s.fired[k] || (t.fired[k] == t.completed[f] && t.fired[k] > s.epoch))
    ensures var t, f := Play(g, w, s, ops), g.edges[k].from;
      Done(f) in ops && g.edges[k].on.Matches(VerdictOf(g, w, f, s.attempts[f])) ==> t.fired[k] == t.completed[f]
    ensures var t, f := Play(g, w, s, ops), g.edges[k].from;
      !g.edges[k].on.Matches(VerdictOf(g, w, f, s.attempts[f])) ==> t.fired[k] == s.fired[k]
    decreases |ops|
  {
    if ops != [] {
      var rest, last := ops[..|ops| - 1], ops[|ops| - 1];
      assert ops == rest + [last];
      FiresOrNot(g, w, s, rest, k);
      Completes(g, w, s, rest, g.edges[k].from);
      if !(Done(g.edges[k].from) in rest) {
        FiringStays(g, w, s, rest, k);
      }
      assert last.Done? ==> last == Done(last.node);
      assert last.Start? ==> last == Start(last.node);
    }
  }

  lemma BatchFires(g: Graph, w: World, s: State, b: seq<nat>, k: nat)
    requires Shape(g, s) && Below(b, g.Size()) && k < |g.edges| && g.edges[k].from < g.Size() && g.Par(g.edges[k].from)
    ensures InRange(g, BatchOps(g, w, s.attempts, b))
    ensures var t, f := Play(g, w, s, BatchOps(g, w, s.attempts, b)), g.edges[k].from;
      t.fired[k] == s.fired[k] || (t.fired[k] == t.completed[f] && t.fired[k] > s.epoch)
  {
    hide StartOps, RenderOps, DoneOps, OfKind, LaunchOps, Launched, Play;
    var f, a := g.edges[k].from, Bumped(s.attempts, b);
    var selects, agents := OfKind(g, b, Select), OfKind(g, b, Agent);
    var rest := RenderOps(selects) + LaunchOps(w, a, agents) + DoneOps(Launched(w, a, agents)) + DoneOps(selects);
    var ops := StartOps(g, b) + rest;
    assert BatchOps(g, w, s.attempts, b) == ops;
    BatchInRange(g, w, s.attempts, b);
    SplitInRange(g, StartOps(g, b), rest);
    assert Done(f) !in StartOps(g, b) by {
      StartOpsHold(g, b, Done(f));
    }
    assert Start(f) !in rest by {
      RenderOpsHold(selects, Start(f));
      LaunchOpsHold(w, a, agents, Start(f));
      RenderOpsHold(Launched(w, a, agents), Start(f));
    }
    hide BatchOps;
    PlayConcat(g, w, s, StartOps(g, b), rest);
    FiringStays(g, w, s, StartOps(g, b), k);
    Completes(g, w, s, StartOps(g, b), f);
    FiresOrNot(g, w, Play(g, w, s, StartOps(g, b)), rest, k);
  }

  lemma SplitInRange(g: Graph, a: seq<Op>, b: seq<Op>)
    requires InRange(g, a + b)
    ensures InRange(g, a) && InRange(g, b)
  {
    forall x | 0 <= x < |a|
      ensures a[x].node < g.Size()
    {
      assert (a + b)[x] == a[x];
    }
    forall x | 0 <= x < |b|
      ensures b[x].node < g.Size()
    {
      assert (a + b)[|a| + x] == b[x];
    }
  }

  /** At which attempt of its source each edge last fired, after a batch. */
  function OriginsAfter(g: Graph, s: State, t: State, origins: seq<nat>): (r: seq<nat>)
    requires |s.fired| == |t.fired| == |g.edges| == |origins| && |t.attempts| == g.Size()
    requires forall k :: 0 <= k < |g.edges| ==> g.edges[k].from < g.Size()
    ensures |r| == |g.edges|
  {
    seq(|g.edges|, k requires 0 <= k < |g.edges| =>
      if t.fired[k] != s.fired[k] then t.attempts[g.edges[k].from] else origins[k])
  }

  /** The same after a run. */
  ghost function Origins(g: Graph, w: World, maxSteps: nat, s: State, origins: seq<nat>): (r: seq<nat>)
    requires ValidGraph(g) && Inv(g, s) && AllIdle(g, s) && |origins| == |g.edges|
    ensures |r| == |g.edges|
    decreases Sum(Caps(g)) - s.steps
  {
    if s.steps >= maxSteps || Runnable(g, s, g.Size()) == [] then origins
    else
      StepsWithinCaps(g, s);
      StepsWithinCaps(g, Batch(g, w, s));
      Origins(g, w, maxSteps, Batch(g, w, s), OriginsAfter(g, s, Batch(g, w, s), origins))
  }

  /** At which attempt of its source each edge last fired in a whole run; 0 where it never did. */
  ghost function FiredAt(g: Graph, w: World, maxSteps: nat): (r: seq<nat>)
    requires ValidGraph(g)
    ensures |r| == |g.edges|
  {
    InitInv(g);
    Origins(g, w, maxSteps, Init(g), Zeros(|g.edges|))
  }

  /** A firing at the very epoch its target was scheduled at was shown exactly when it was a failed launch before the
    target's. */
  ghost predicate FiringTold(g: Graph, w: World, s: State, origins: seq<nat>, k: nat)
    requires ValidGraph(g) && Shape(g, s) && |origins| == |g.edges| && k < |g.edges|
  {
    var i, f := g.edges[k].to, g.edges[k].from;
    g.Par(i) && g.Par(f) && s.attempts[i] > 0 && s.fired[k] == s.scheduled[i] ==>
      (s.seen[i][f] >= s.fired[k] <==> FailedFirst(g, w, origins[k], f, i))
  }

  lemma IdleBounds(g: Graph, s: State, k: nat)
    requires ValidGraph(g) && Inv(g, s) && AllIdle(g, s) && k < |g.edges|
    ensures var i, f := g.edges[k].to, g.edges[k].from;
      s.fired[k] <= s.completed[f] <= s.epoch && s.scheduled[i] <= s.completed[i] <= s.epoch
  {
    hide Counts, GatesFirst, Shown;
  }

  lemma SeenBound(g: Graph, t: State, i: nat, f: nat)
    requires ValidGraph(g) && Inv(g, t) && i < g.Size() && f < g.Size()
    ensures t.attempts[i] > 0 ==> t.seen[i][f] <= t.completed[f]
  {
    hide Counts, GatesFirst, Clocked, ShownFirings;
  }

  /** What a batch does to the two ends of an edge between background nodes. */
  lemma BatchEffects(g: Graph, w: World, s: State, k: nat)
    requires ValidGraph(g) && Inv(g, s) && AllIdle(g, s) && k < |g.edges| && g.Par(g.edges[k].to) && g.Par(g.edges[k].from)
    ensures var b, t, i, f := Runnable(g, s, g.Size()), Batch(g, w, s), g.edges[k].to, g.edges[k].from;
      && s.fired[k] <= s.completed[f] <= s.epoch && s.scheduled[i] <= s.epoch
      && (t.attempts[i] > 0 ==> t.seen[i][f] <= t.completed[f])
      && (t.fired[k] == s.fired[k] || (t.fired[k] == t.completed[f] && t.fired[k] > s.epoch && f in b))
      && (i in b ==> t.scheduled[i] > s.epoch)
      && (i !in b ==> t.scheduled[i] == s.scheduled[i] && t.seen[i] == s.seen[i] && t.attempts[i] == s.attempts[i])
      && (i in b && f in b ==> (t.seen[i][f] == t.completed[f] <==> FailsFirst(g, w, t.attempts, f, i)))
  {
    var i, f := g.edges[k].to, g.edges[k].from;
    var b, t := Runnable(g, s, g.Size()), Batch(g, w, s);
    var ops := BatchOps(g, w, s.attempts, b);
    IdleBounds(g, s, k);
    SeenBound(g, t, i, f);
    hide Inv, AllIdle, Runnable, BatchOps, Play, Bumped, LegalAll, FailsFirst;
    BatchIsLegal(g, w, s, b);
    BatchFires(g, w, s, b, k);
    BatchHolds(g, w, s.attempts, b, i);
    BatchHolds(g, w, s.attempts, b, f);
    Completes(g, w, s, ops, f);
    Schedules(g, w, s, ops, i);
    if i in b && f in b {
      BatchTells(g, w, s, b, i, f);
    }
    if i !in b {
      SeenStays(g, w, s, ops, i);
      BumpedAt(s.attempts, b, i);
    }
  }

  lemma BatchKeepsFiring(g: Graph, w: World, s: State, origins: seq<nat>, k: nat)
    requires ValidGraph(g) && Inv(g, s) && AllIdle(g, s) && |origins| == |g.edges| && k < |g.edges|
    requires FiringTold(g, w, s, origins, k)
    ensures FiringTold(g, w, Batch(g, w, s), OriginsAfter(g, s, Batch(g, w, s), origins), k)
  {
    if g.Par(g.edges[k].to) && g.Par(g.edges[k].from) {
      BatchEffects(g, w, s, k);
      hide Inv, AllIdle, Batch, Runnable;
    }
  }

  lemma {:induction false} RunTellsFirings(g: Graph, w: World, maxSteps: nat, s: State, origins: seq<nat>, k: nat)
    requires ValidGraph(g) && Inv(g, s) && AllIdle(g, s) && |origins| == |g.edges| && k < |g.edges|
    requires FiringTold(g, w, s, origins, k)
    ensures FiringTold(g, w, RunFrom(g, w, maxSteps, s), Origins(g, w, maxSteps, s, origins), k)
    decreases Sum(Caps(g)) - s.steps
  {
    hide Counts, Clocked, GatesFirst, Shown, ShownFirings, AllIdle, Batch, FiringTold, OriginsAfter;
    if !(s.steps >= maxSteps || Runnable(g, s, g.Size()) == []) {
      StepsWithinCaps(g, s);
      StepsWithinCaps(g, Batch(g, w, s));
      BatchKeepsFiring(g, w, s, origins, k);
      RunTellsFirings(g, w, maxSteps, Batch(g, w, s), OriginsAfter(g, s, Batch(g, w, s), origins), k);
    }
  }

  lemma NothingFiredYet(g: Graph, w: World, k: nat)
    requires ValidGraph(g) && k < |g.edges|
    ensures FiringTold(g, w, Init(g), Zeros(|g.edges|), k)
  {
  }

  /** Exactly which firings of feedback edges such a node was not shown: those at the very epoch it was scheduled at,
    if the edge is from the node itself or joins two background nodes, unless the firing came of an agent that
    failed at its launch before the node's own. */
  lemma StaleFeedbackIff(g: Graph, w: World, maxSteps: nat, i: nat, k: nat)
    requires ValidGraph(g) && Runnable(g, Run(g, w, maxSteps), g.Size()) == []
    requires var t := Run(g, w, maxSteps);
      i < g.Size() && t.attempts[i] < g.nodes[i].Cap() && Satisfied(g, t, i)
    requires k < |g.edges| && g.edges[k].feedback && g.edges[k].to == i
    ensures var t, f := Run(g, w, maxSteps), g.edges[k].from;
      t.seen[i][f] < t.fired[k] <==>
        && t.fired[k] == t.scheduled[i]
        && (if g.Par(i) && g.Par(f) then !FailedFirst(g, w, FiredAt(g, w, maxSteps)[k], f, i) else f == i)
  {
    hide Run, Runnable, FiredAt, Inv;
    var t := Run(g, w, maxSteps);
    WholeRunTells(g, w, maxSteps, k);
    Quiescent(g, t, i);
  }

  lemma WholeRunTells(g: Graph, w: World, maxSteps: nat, k: nat)
    requires ValidGraph(g) && k < |g.edges|
    ensures FiringTold(g, w, Run(g, w, maxSteps), FiredAt(g, w, maxSteps), k) && SelfFired(g, Run(g, w, maxSteps))
  {
    InitInv(g);
    NothingFiredYet(g, w, k);
    hide Inv, AllIdle, SelfFired, FiringTold, RunFrom, Origins;
    RunTellsFirings(g, w, maxSteps, Init(g), Zeros(|g.edges|), k);
    assert SelfFired(g, Init(g)) by {
      NoSelfFiredYet(g);
    }
    RunKeepsSelfFired(g, w, maxSteps, Init(g));
  }

  lemma NoSelfFiredYet(g: Graph)
    requires ValidGraph(g)
    ensures SelfFired(g, Init(g))
  {
  }
}
