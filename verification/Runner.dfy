/** The run itself: the arrays the loop keeps, updated in place, each method proved against the operation
  it performs. */
module Runner {
  import opened Plan
  import opened Scheduler
  import opened GraphRun
  import opened Wrappers

  /** What `{{prev}}` holds: each inbound edge's source with what it last came to. */
  function Prev(edges: seq<Edge>, outcomes: seq<Option<Verdict>>, i: nat): (parts: seq<(nat, Verdict)>)
    requires forall k :: 0 <= k < |edges| ==> edges[k].from < |outcomes|
  {
    if edges == [] then []
    else
      var e := edges[|edges| - 1];
      Prev(edges[..|edges| - 1], outcomes, i) +
      if e.to == i && outcomes[e.from].Some? then [(e.from, outcomes[e.from].value)] else []
  }

  /** The parts come in the order of the edges: an edge whose source came back has its part behind those of the edges
    before it. */
  lemma {:induction false} PartAt(edges: seq<Edge>, outcomes: seq<Option<Verdict>>, i: nat, k: nat)
    requires forall x :: 0 <= x < |edges| ==> edges[x].from < |outcomes|
    requires k < |edges| && edges[k].to == i && outcomes[edges[k].from].Some?
    ensures var parts, at := Prev(edges, outcomes, i), |Prev(edges[..k], outcomes, i)|;
      at < |parts| && parts[at] == (edges[k].from, outcomes[edges[k].from].value)
    decreases |edges|
  {
    var last := |edges| - 1;
    if k < last {
      PartAt(edges[..last], outcomes, i, k);
      assert edges[..last][..k] == edges[..k];
    }
  }

  /** And there are no others. */
  lemma {:induction false} PartsCount(edges: seq<Edge>, outcomes: seq<Option<Verdict>>, i: nat)
    requires forall x :: 0 <= x < |edges| ==> edges[x].from < |outcomes|
    ensures |Prev(edges, outcomes, i)| == |set k: nat | k < |edges| && edges[k].to == i && outcomes[edges[k].from].Some?|
  {
    if edges != [] {
      var last := |edges| - 1;
      PartsCount(edges[..last], outcomes, i);
      SourcesSnoc(edges, outcomes, i);
    }
  }

  lemma SourcesSnoc(edges: seq<Edge>, outcomes: seq<Option<Verdict>>, i: nat)
    requires edges != [] && forall x :: 0 <= x < |edges| ==> edges[x].from < |outcomes|
    ensures var last := |edges| - 1;
      |set k: nat | k < |edges| && edges[k].to == i && outcomes[edges[k].from].Some?| ==
        |set k: nat | k < last && edges[..last][k].to == i && outcomes[edges[..last][k].from].Some?|
        + if edges[last].to == i && outcomes[edges[last].from].Some? then 1 else 0
  {
    var last := |edges| - 1;
    var before := set k: nat | k < last && edges[..last][k].to == i && outcomes[edges[..last][k].from].Some?;
    var all := set k: nat | k < |edges| && edges[k].to == i && outcomes[edges[k].from].Some?;
    assert forall k :: k in all <==> k in before || (k == last && edges[last].to == i && outcomes[edges[last].from].Some?);
    if edges[last].to == i && outcomes[edges[last].from].Some? {
      assert all == before + {last} && last !in before;
    } else {
      assert all == before;
    }
  }

  lemma StartOpsStep(g: Graph, w: World, s: State, b: seq<nat>, k: nat)
    requires Shape(g, s) && Below(b, g.Size()) && k < |b| && InRange(g, StartOps(g, b[..k]))
    ensures InRange(g, StartOps(g, [b[k]])) && InRange(g, StartOps(g, b[..k + 1]))
    ensures Play(g, w, s, StartOps(g, b[..k + 1])) == Play(g, w, Play(g, w, s, StartOps(g, b[..k])), StartOps(g, [b[k]]))
  {
    StartOpsSnoc(g, b, k);
    hide StartOps, Play, Apply;
    PlayConcat(g, w, s, StartOps(g, b[..k]), StartOps(g, [b[k]]));
  }

  lemma DoneOpsStep(g: Graph, w: World, s: State, b: seq<nat>, k: nat)
    requires Shape(g, s) && Below(b, g.Size()) && k < |b| && InRange(g, DoneOps(b[..k]))
    ensures InRange(g, DoneOps(b[..k + 1]))
    ensures Play(g, w, s, DoneOps(b[..k + 1])) == Apply(g, w, Play(g, w, s, DoneOps(b[..k])), Done(b[k]))
  {
    PlaySnoc(g, w, s, DoneOps(b[..k]), Done(b[k]));
    assert DoneOps(b[..k + 1]) == DoneOps(b[..k]) + [Done(b[k])];
  }

  lemma LaunchOpsStep(g: Graph, w: World, s: State, a: seq<nat>, b: seq<nat>, k: nat)
    requires Shape(g, s) && Below(b, g.Size()) && |a| == g.Size() && k < |b| && InRange(g, LaunchOps(w, a, b[..k]))
    ensures InRange(g, LaunchOps(w, a, [b[k]])) && InRange(g, LaunchOps(w, a, b[..k + 1]))
    ensures Play(g, w, s, LaunchOps(w, a, b[..k + 1])) ==
      Play(g, w, Play(g, w, s, LaunchOps(w, a, b[..k])), LaunchOps(w, a, [b[k]]))
    ensures Launched(w, a, b[..k + 1]) == Launched(w, a, b[..k]) + if w.starts(b[k], a[b[k]]) then [b[k]] else []
  {
    LaunchOpsSnoc(w, a, b, k);
    hide LaunchOps, Launched, Play, Apply;
    PlayConcat(g, w, s, LaunchOps(w, a, b[..k]), LaunchOps(w, a, [b[k]]));
  }

  ghost function FannedOut(g: Graph, w: World, s: State, agents: seq<nat>, selects: seq<nat>): State
    requires Shape(g, s) && Below(agents, g.Size()) && Below(selects, g.Size())
  {
    LaunchInRange(g, w, s.attempts, agents);
    var s1 := Play(g, w, s, RenderOps(selects));
    var s2 := Play(g, w, s1, LaunchOps(w, s.attempts, agents));
    Play(g, w, Play(g, w, s2, DoneOps(Launched(w, s.attempts, agents))), DoneOps(selects))
  }

  lemma {:induction false} LaunchInRange(g: Graph, w: World, a: seq<nat>, b: seq<nat>)
    requires |a| == g.Size() && Below(b, g.Size())
    ensures InRange(g, LaunchOps(w, a, b))
    decreases |b|
  {
    if b != [] {
      LaunchInRange(g, w, a, b[..|b| - 1]);
    }
  }

  lemma StartAttempts(g: Graph, w: World, s: State, b: seq<nat>)
    requires ValidGraph(g) && Inv(g, s) && AllIdle(g, s) && b == Runnable(g, s, g.Size())
    ensures Below(b, g.Size()) && InRange(g, StartOps(g, b))
    ensures Play(g, w, s, StartOps(g, b)).attempts == Bumped(s.attempts, b)
  {
    RunnableCanStart(g, s);
    StartSegment(g, w, s, b);
  }

  /** A batch is its starts, then the fan-out and the join. */
  lemma BatchInStretches(g: Graph, w: World, s: State, b: seq<nat>)
    requires ValidGraph(g) && Inv(g, s) && AllIdle(g, s) && b == Runnable(g, s, g.Size())
    ensures Below(b, g.Size()) && InRange(g, StartOps(g, b))
    ensures forall x :: 0 <= x < |OfKind(g, b, Agent)| ==> g.nodes[OfKind(g, b, Agent)[x]].kind.Agent?
    ensures forall x :: 0 <= x < |OfKind(g, b, Select)| ==> g.nodes[OfKind(g, b, Select)[x]].kind.Select?
    ensures Batch(g, w, s) == FannedOut(g, w, Play(g, w, s, StartOps(g, b)), OfKind(g, b, Agent), OfKind(g, b, Select))
  {
    hide Counts, Clocked, GatesFirst, Shown, ShownFirings;
    hide Apply, Play, IsRunnable, StartOps, LaunchOps, RenderOps, DoneOps, AllIdle, LegalAll;
    StartAttempts(g, w, s, b);
    var selects, agents, after := OfKind(g, b, Select), OfKind(g, b, Agent), Bumped(s.attempts, b);
    LaunchInRange(g, w, after, agents);
    var ops := StartOps(g, b);
    SmallInRange(g, selects);
    SmallInRange(g, Launched(w, after, agents));
    PlayConcat(g, w, s, ops, RenderOps(selects));
    ops := ops + RenderOps(selects);
    PlayConcat(g, w, s, ops, LaunchOps(w, after, agents));
    ops := ops + LaunchOps(w, after, agents);
    PlayConcat(g, w, s, ops, DoneOps(Launched(w, after, agents)));
    ops := ops + DoneOps(Launched(w, after, agents));
    PlayConcat(g, w, s, ops, DoneOps(selects));
    assert ops + DoneOps(selects) == BatchOps(g, w, s.attempts, b);
  }

  lemma SmallInRange(g: Graph, b: seq<nat>)
    requires Below(b, g.Size())
    ensures InRange(g, RenderOps(b)) && InRange(g, DoneOps(b))
  {
  }

  lemma StartPlays(g: Graph, w: World, s: State, i: nat)
    requires Shape(g, s) && i < |g.nodes|
    ensures InRange(g, StartOps(g, [i]))
    ensures var t := Apply(g, w, s, Op.Start(i));
      Play(g, w, s, StartOps(g, [i])) == if g.Par(i) then t else Apply(g, w, t, Op.Done(i))
  {
    var start, done := [Op.Start(i)], [Op.Done(i)];
    assert StartOps(g, [i]) == if g.Par(i) then start else start + done;
    PlaySnoc(g, w, s, [], Op.Start(i));
    assert [] + start == start;
    PlaySnoc(g, w, s, start, Op.Done(i));
  }

  lemma LaunchPlays(g: Graph, w: World, s: State, i: nat)
    requires Shape(g, s) && i < |g.nodes|
    ensures InRange(g, LaunchOps(w, s.attempts, [i]))
    ensures var t := Apply(g, w, s, Op.Render(i));
      Play(g, w, s, LaunchOps(w, s.attempts, [i])) == if w.starts(i, s.attempts[i]) then t else Apply(g, w, t, Op.Done(i))
  {
    var render, done := [Op.Render(i)], [Op.Done(i)];
    assert LaunchOps(w, s.attempts, [i]) == if w.starts(i, s.attempts[i]) then render else render + done;
    PlaySnoc(g, w, s, [], Op.Render(i));
    assert [] + render == render;
    PlaySnoc(g, w, s, render, Op.Done(i));
  }

  class GraphRunner {
    const g: Graph
    const w: World
    const outcomes: array<Option<Verdict>>
    const attempts: array<nat>
    const scheduledAt: array<nat>
    const completedAt: array<nat>
    const firedAt: array<nat>
    var epoch: nat
    var steps: nat
    ghost var seen: seq<seq<nat>>
    ghost var phase: seq<Phase>

    ghost predicate Apart() {
      && attempts != scheduledAt && attempts != completedAt && attempts != firedAt
      && scheduledAt != completedAt && scheduledAt != firedAt && completedAt != firedAt
    }

    ghost function Model(): State
      reads this, outcomes, attempts, scheduledAt, completedAt, firedAt
    {
      State(outcomes[..], attempts[..], scheduledAt[..], completedAt[..], firedAt[..], epoch, steps, seen, phase)
    }

    ghost predicate Valid()
      reads this, outcomes, attempts, scheduledAt, completedAt, firedAt
    {
      Apart() && ValidGraph(g) && Shape(g, Model())
    }

    constructor (g: Graph, w: World)
      requires ValidGraph(g)
      ensures Valid() && this.g == g && this.w == w && Model() == Init(g)
      ensures fresh(outcomes) && fresh(attempts) && fresh(scheduledAt) && fresh(completedAt) && fresh(firedAt)
    {
      this.g := g;
      this.w := w;
      outcomes := new Option<Verdict>[|g.nodes|](_ => None);
      attempts := new nat[|g.nodes|](_ => 0);
      scheduledAt := new nat[|g.nodes|](_ => 0);
      completedAt := new nat[|g.nodes|](_ => 0);
      firedAt := new nat[|g.edges|](_ => 0);
      epoch, steps := 0, 0;
      seen := seq(|g.nodes|, _ => Zeros(|g.nodes|));
      phase := seq(|g.nodes|, _ => Idle);
      new;
      assert attempts[..] == Zeros(|g.nodes|) && scheduledAt[..] == Zeros(|g.nodes|);
      assert completedAt[..] == Zeros(|g.nodes|) && firedAt[..] == Zeros(|g.edges|);
      assert outcomes[..] == Init(g).outcomes;
    }

    method Start(i: nat)
      requires Valid() && i < |g.nodes|
      modifies this`steps, this`seen, this`phase, attempts, scheduledAt
      ensures Valid() && Model() == Apply(g, w, old(Model()), Op.Start(i))
    {
      ghost var s := Model();
      ApplyShape(g, w, s, Op.Start(i));
      attempts[i] := attempts[i] + 1;
      steps := steps + 1;
      scheduledAt[i] := epoch + 1;
      seen := seen[i := completedAt[..]];
      phase := phase[i := if g.Par(i) then Waiting else Working];
      assert attempts[..] == s.attempts[i := s.attempts[i] + 1];
      assert scheduledAt[..] == s.scheduled[i := s.epoch + 1];
    }

    /** `prev`: what is put into the node's prompt. */
    method Render(i: nat) returns (parts: seq<(nat, Verdict)>)
      requires Valid() && i < |g.nodes|
      modifies this`seen, this`phase
      ensures Valid() && Model() == Apply(g, w, old(Model()), Op.Render(i))
      ensures parts == Prev(g.edges, outcomes[..], i)
    {
      ApplyShape(g, w, Model(), Op.Render(i));
      parts := [];
      var k := 0;
      while k < |g.edges|
        invariant 0 <= k <= |g.edges|
        invariant parts == Prev(g.edges[..k], outcomes[..], i)
      {
        var e := g.edges[k];
        assert g.edges[..k + 1][..k] == g.edges[..k];
        if e.to == i && outcomes[e.from].Some? {
          parts := parts + [(e.from, outcomes[e.from].value)];
        }
        k := k + 1;
      }
      assert g.edges[..k] == g.edges;
      seen := seen[i := completedAt[..]];
      phase := phase[i := Working];
    }

    /** Marks the edges out of `i` whose condition its verdict met. */
    method Fire(i: nat, v: Verdict)
      requires Valid()
      modifies firedAt
      ensures firedAt[..] == Scheduler.Fire(g, old(firedAt[..]), i, v, epoch)
      ensures forall k :: 0 <= k < |g.edges| ==>
        var e := g.edges[k];
        firedAt[k] == if e.from == i && (e.on.OnAlways? || (e.on.OnPass? && v.Pass?) || (e.on.OnFail? && v.Fail?))
                      then epoch else old(firedAt[k])
    {
      ghost var was := firedAt[..];
      var k := 0;
      while k < |g.edges|
        invariant 0 <= k <= |g.edges|
        invariant forall j :: 0 <= j < k ==> firedAt[j] == Scheduler.Fire(g, was, i, v, epoch)[j]
        invariant forall j :: k <= j < |g.edges| ==> firedAt[j] == was[j]
      {
        if g.edges[k].from == i && g.edges[k].on.Matches(v) {
          firedAt[k] := epoch;
        }
        k := k + 1;
      }
    }

    method Done(i: nat, v: Verdict)
      requires Valid() && i < |g.nodes| && v == VerdictOf(g, w, i, attempts[i])
      modifies this`epoch, this`phase, outcomes, completedAt, firedAt
      ensures Valid() && Model() == Apply(g, w, old(Model()), Op.Done(i))
    {
      ghost var s := Model();
      ApplyShape(g, w, s, Op.Done(i));
      outcomes[i] := Some(v);
      epoch := epoch + 1;
      completedAt[i] := epoch;
      Fire(i, v);
      phase := phase[i := Idle];
      assert outcomes[..] == s.outcomes[i := Some(v)];
      assert completedAt[..] == s.completed[i := s.epoch + 1];
    }

    // -------------------------------------------------------------- the runnable filter

    method CheckSatisfied(i: nat) returns (r: bool)
      requires Valid() && i < |g.nodes|
      ensures r == Satisfied(g, Model(), i)
    {
      var k := 0;
      while k < |g.edges|
        invariant 0 <= k <= |g.edges|
        invariant forall j: nat :: j < k && g.Gate(j, i) ==>
          outcomes[g.edges[j].from].Some? && g.edges[j].on.Matches(outcomes[g.edges[j].from].value)
      {
        var e := g.edges[k];
        if e.to == i && !e.feedback && !(outcomes[e.from].Some? && e.on.Matches(outcomes[e.from].value)) {
          assert g.Gate(k, i);
          return false;
        }
        k := k + 1;
      }
      return true;
    }

    method CheckFresh(i: nat) returns (r: bool)
      requires Valid() && i < |g.nodes| && Satisfied(g, Model(), i)
      ensures r == (FreshInput(g, Model(), i) || Rollback(g, Model(), i))
    {
      ghost var s := Model();
      var k := 0;
      while k < |g.edges|
        invariant 0 <= k <= |g.edges|
        invariant forall j: nat :: j < k && g.Gate(j, i) ==> s.completed[g.edges[j].from] <= s.scheduled[i]
        invariant forall j: nat :: j < k && g.edges[j].to == i && g.edges[j].feedback ==> s.fired[j] <= s.scheduled[i]
      {
        var e := g.edges[k];
        if e.to == i {
          if !e.feedback && completedAt[e.from] > scheduledAt[i] {
            assert g.Gate(k, i) && s.completed[e.from] > s.scheduled[i];
            return true;
          }
          if e.feedback && firedAt[k] > scheduledAt[i] {
            assert s.fired[k] > s.scheduled[i];
            return true;
          }
        }
        k := k + 1;
      }
      return false;
    }

    method CheckRunnable(i: nat) returns (r: bool)
      requires Valid() && i < |g.nodes|
      ensures r == IsRunnable(g, Model(), i)
    {
      if attempts[i] >= g.nodes[i].Cap() {
        return false;
      }
      var satisfied := CheckSatisfied(i);
      if !satisfied {
        return false;
      }
      if scheduledAt[i] == 0 {
        return true;
      }
      r := CheckFresh(i);
    }

    method PickBatch() returns (b: seq<nat>)
      requires Valid()
      ensures b == Runnable(g, Model(), |g.nodes|)
    {
      b := [];
      var i: nat := 0;
      while i < |g.nodes|
        invariant i <= |g.nodes|
        invariant b == Runnable(g, Model(), i)
      {
        var runnable := CheckRunnable(i);
        if runnable {
          b := b + [i];
        }
        i := i + 1;
      }
    }

    // -------------------------------------------------------------- one batch

    /** Starts a node; a check or an approval is also run to its end. */
    method StartOne(i: nat)
      requires Valid() && i < |g.nodes|
      modifies this, outcomes, attempts, scheduledAt, completedAt, firedAt
      ensures Valid() && InRange(g, StartOps(g, [i])) && Model() == Play(g, w, old(Model()), StartOps(g, [i]))
    {
      StartPlays(g, w, Model(), i);
      hide Apply, Play, StartOps;
      Start(i);
      if g.nodes[i].kind.Inline() {
        Done(i, w.verdict(i, attempts[i]));
      }
    }

    /** Inline kinds first, as they are picked; agents and selects are put aside. */
    method StartAll(b: seq<nat>) returns (agents: seq<nat>, selects: seq<nat>)
      requires Valid() && Below(b, |g.nodes|)
      modifies this, outcomes, attempts, scheduledAt, completedAt, firedAt
      ensures Valid() && agents == OfKind(g, b, Agent) && selects == OfKind(g, b, Select)
      ensures InRange(g, StartOps(g, b)) && Model() == Play(g, w, old(Model()), StartOps(g, b))
    {
      ghost var s := Model();
      agents, selects := [], [];
      var k := 0;
      while k < |b|
        invariant 0 <= k <= |b| && Valid()
        invariant agents == OfKind(g, b[..k], Agent) && selects == OfKind(g, b[..k], Select)
        invariant InRange(g, StartOps(g, b[..k])) && Model() == Play(g, w, s, StartOps(g, b[..k]))
      {
        hide Apply, Play, StartOps, OfKind;
        var i := b[k];
        StartOpsStep(g, w, s, b, k);
        OfKindSnoc(g, b, k, Select);
        OfKindSnoc(g, b, k, Agent);
        StartOne(i);
        if g.nodes[i].kind.Select? {
          selects := selects + [i];
        } else if g.nodes[i].kind.Agent? {
          agents := agents + [i];
        }
        k := k + 1;
      }
      assert b[..k] == b;
    }

    method RenderAll(b: seq<nat>)
      requires Valid() && Below(b, |g.nodes|)
      modifies this`seen, this`phase
      ensures Valid() && InRange(g, RenderOps(b)) && Model() == Play(g, w, old(Model()), RenderOps(b))
    {
      ghost var s := Model();
      var k := 0;
      while k < |b|
        invariant 0 <= k <= |b| && Valid()
        invariant InRange(g, RenderOps(b[..k])) && Model() == Play(g, w, s, RenderOps(b[..k]))
      {
        var _ := Render(b[k]);
        PlaySnoc(g, w, s, RenderOps(b[..k]), Op.Render(b[k]));
        assert RenderOps(b[..k + 1]) == RenderOps(b[..k]) + [Op.Render(b[k])];
        k := k + 1;
      }
      assert b[..k] == b;
    }

    method DoneAll(b: seq<nat>)
      requires Valid() && Below(b, |g.nodes|)
      requires forall x :: 0 <= x < |b| && g.nodes[b[x]].kind.Agent? ==> w.starts(b[x], attempts[b[x]])
      modifies this`epoch, this`phase, outcomes, completedAt, firedAt
      ensures Valid() && InRange(g, DoneOps(b)) && Model() == Play(g, w, old(Model()), DoneOps(b))
    {
      ghost var s := Model();
      var k := 0;
      while k < |b|
        invariant 0 <= k <= |b| && Valid()
        invariant InRange(g, DoneOps(b[..k])) && Model() == Play(g, w, s, DoneOps(b[..k]))
      {
        hide Apply, Play, DoneOps;
        DoneOpsStep(g, w, s, b, k);
        Done(b[k], w.verdict(b[k], attempts[b[k]]));
        k := k + 1;
      }
      assert b[..k] == b;
    }

    /** Launches an agent; one that can't start fails there and then. */
    method LaunchOne(i: nat) returns (started: bool)
      requires Valid() && i < |g.nodes| && g.nodes[i].kind.Agent?
      modifies this`epoch, this`seen, this`phase, outcomes, completedAt, firedAt
      ensures Valid() && started == w.starts(i, attempts[i])
      ensures InRange(g, LaunchOps(w, attempts[..], [i]))
      ensures Model() == Play(g, w, old(Model()), LaunchOps(w, attempts[..], [i]))
    {
      LaunchPlays(g, w, Model(), i);
      hide Apply, Play, LaunchOps;
      started := w.starts(i, attempts[i]);
      var _ := Render(i);
      if !started {
        Done(i, Fail);
      }
    }

    method Launch(b: seq<nat>) returns (jobs: seq<nat>)
      requires Valid() && Below(b, |g.nodes|) && forall x :: 0 <= x < |b| ==> g.nodes[b[x]].kind.Agent?
      modifies this`epoch, this`seen, this`phase, outcomes, completedAt, firedAt
      ensures Valid() && jobs == Launched(w, attempts[..], b)
      ensures InRange(g, LaunchOps(w, attempts[..], b))
      ensures Model() == Play(g, w, old(Model()), LaunchOps(w, attempts[..], b))
    {
      ghost var s := Model();
      ghost var a := attempts[..];
      jobs := [];
      var k := 0;
      while k < |b|
        invariant 0 <= k <= |b| && Valid()
        invariant jobs == Launched(w, a, b[..k]) && InRange(g, LaunchOps(w, a, b[..k]))
        invariant Model() == Play(g, w, s, LaunchOps(w, a, b[..k]))
      {
        hide Apply, Play, LaunchOps, Launched;
        var i := b[k];
        LaunchOpsStep(g, w, s, a, b, k);
        var started := LaunchOne(i);
        if started {
          jobs := jobs + [i];
        }
        k := k + 1;
      }
      assert b[..k] == b;
    }

    /** The agents fan out with the selects beside them, and the join records what came back. */
    method FanOut(agents: seq<nat>, selects: seq<nat>)
      requires Valid() && Below(agents, |g.nodes|) && Below(selects, |g.nodes|)
      requires forall x :: 0 <= x < |agents| ==> g.nodes[agents[x]].kind.Agent?
      requires forall x :: 0 <= x < |selects| ==> g.nodes[selects[x]].kind.Select?
      modifies this`epoch, this`seen, this`phase, outcomes, completedAt, firedAt
      ensures Valid() && Model() == FannedOut(g, w, old(Model()), agents, selects)
    {
      hide Apply, Play, LaunchOps, RenderOps, DoneOps, ValidGraph;
      RenderAll(selects);
      var jobs := Launch(agents);
      DoneAll(jobs);
      DoneAll(selects);
    }

    /** One batch: inline kinds, then the rest. */
    method RunBatch(b: seq<nat>)
      requires Valid() && Below(b, |g.nodes|)
      requires Inv(g, Model()) && AllIdle(g, Model()) && b == Runnable(g, Model(), |g.nodes|)
      modifies this, outcomes, attempts, scheduledAt, completedAt, firedAt
      ensures Valid() && Model() == Batch(g, w, old(Model()))
    {
      ghost var s := Model();
      BatchInStretches(g, w, s, b);
      hide Apply, Play, Runnable, StartOps, Batch, Inv, FannedOut, OfKind, AllIdle, ValidGraph;
      var agents, selects := StartAll(b);
      FanOut(agents, selects);
    }

    // -------------------------------------------------------------- the loop

    /** Runs until the step cap or until nothing is runnable. */
    method Execute(maxSteps: nat)
      requires Valid() && Inv(g, Model()) && AllIdle(g, Model())
      modifies this, outcomes, attempts, scheduledAt, completedAt, firedAt
      ensures Valid() && Model() == RunFrom(g, w, maxSteps, old(Model()))
    {
      ghost var s := Model();
      while true
        invariant Valid() && Inv(g, Model()) && AllIdle(g, Model())
        invariant RunFrom(g, w, maxSteps, s) == RunFrom(g, w, maxSteps, Model())
        decreases Sum(Caps(g)) - steps
      {
        hide Counts, Clocked, GatesFirst, Shown, ShownFirings, Batch, Runnable;
        if steps >= maxSteps {
          break;
        }
        var b := PickBatch();
        if b == [] {
          break;
        }
        StepsWithinCaps(g, Model());
        StepsWithinCaps(g, Batch(g, w, Model()));
        RunBatch(b);
      }
    }

    /** The run's own verdict: 0 when the goal was met, else 2. */
    method Finish() returns (code: int)
      requires Valid()
      ensures code == (if GoalMet(g, outcomes[..]) then 0 else 2)
      ensures code == 0 || code == 2
      ensures code == 0 <==>
        match g.succeedWhen
        case Some(i) => outcomes[i] == Some(Pass)
        case None =>
          forall i :: 0 <= i < |g.nodes| && (forall k :: 0 <= k < |g.edges| && g.edges[k].from == i ==> g.edges[k].feedback)
            ==> outcomes[i] == Some(Pass)
    {
      GoalIs(g, outcomes[..]);
      if g.succeedWhen.Some? {
        return if outcomes[g.succeedWhen.value] == Some(Pass) then 0 else 2;
      }
      var terminals, i: nat := 0, 0;
      while i < |g.nodes|
        invariant i <= |g.nodes|
        invariant terminals > 0 <==> exists j: nat :: j < i && IsTerminal(Arcs(g.edges), Marks(g.edges), j)
        invariant forall j: nat :: j < i && IsTerminal(Arcs(g.edges), Marks(g.edges), j) ==> outcomes[j] == Some(Pass)
      {
        if IsTerminal(Arcs(g.edges), Marks(g.edges), i) {
          terminals := terminals + 1;
          if outcomes[i] != Some(Pass) {
            return 2;
          }
        }
        i := i + 1;
      }
      return if terminals > 0 then 0 else 2;
    }
  }

  /** A whole run of a validated graph. */
  method RunGraph(g: Graph, w: World, maxSteps: nat) returns (code: int)
    requires ValidGraph(g)
    ensures code == 0 || code == 2
    ensures var last := Run(g, w, maxSteps).outcomes;
      code == 0 <==>
        match g.succeedWhen
        case Some(i) => last[i] == Some(Pass)
        case None =>
          forall i :: 0 <= i < |g.nodes| && (forall k :: 0 <= k < |g.edges| && g.edges[k].from == i ==> g.edges[k].feedback)
            ==> last[i] == Some(Pass)
  {
    hide Counts, Clocked, GatesFirst, Shown, ShownFirings, RunFrom;
    InitInv(g);
    var runner := new GraphRunner(g, w);
    runner.Execute(maxSteps);
    code := runner.Finish();
  }
}
