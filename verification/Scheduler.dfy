/** The scheduling loop of a graph run, as functions over its state. A batch is written out as the
  operations it performs: every picked node starts, the inline kinds finish as they start, prompts are
  rendered, agents are launched, and the join records what came back. */
module Scheduler {
  import opened Plan
  import opened Wrappers

  datatype Verdict = Pass | Fail

  datatype On = OnPass | OnFail | OnAlways {
    predicate Matches(v: Verdict) {
      match this
      case OnAlways => true
      case OnPass => v == Pass
      case OnFail => v == Fail
    }
  }

  datatype Kind = Check | Approval | Agent | Select {
    predicate Inline() { Check? || Approval? }
  }

  datatype Node = Node(kind: Kind, maxAttempts: Option<nat>) {
    /** `max_attempts`, by default 3, at least 1. */
    function Cap(): (c: nat)
      ensures c >= 1
    {
      var c := match maxAttempts case Some(m) => m case None => 3;
      if c < 1 then 1 else c
    }
  }

  datatype Edge = Edge(from: nat, to: nat, on: On, feedback: bool)

  datatype Graph = Graph(nodes: seq<Node>, edges: seq<Edge>, succeedWhen: Option<nat>) {
    function Size(): nat { |nodes| }

    predicate Par(i: nat)
      requires i < |nodes|
    {
      !nodes[i].kind.Inline()
    }

    predicate Gate(k: nat, i: nat) {
      k < |edges| && !edges[k].feedback && edges[k].to == i
    }
  }

  function Arcs(edges: seq<Edge>): (r: seq<Arc>) {
    seq(|edges|, k requires 0 <= k < |edges| => (edges[k].from, edges[k].to))
  }

  function Marks(edges: seq<Edge>): (r: seq<bool>) {
    seq(|edges|, k requires 0 <= k < |edges| => edges[k].feedback)
  }

  /** What `validate` hands to `run`. */
  ghost predicate ValidGraph(g: Graph) {
    && g.nodes != []
    && (forall k :: 0 <= k < |g.edges| ==> g.edges[k].from < g.Size() && g.edges[k].to < g.Size())
    && Greedy(Arcs(g.edges), Marks(g.edges))
    && (g.succeedWhen.Some? ==> g.succeedWhen.value < g.Size())
  }

  /** What the outside answers: the verdict of node `i` on its `a`-th attempt, and whether its agent can
    be started at all. */
  datatype World = World(verdict: (nat, nat) -> Verdict, starts: (nat, nat) -> bool)

  function VerdictOf(g: Graph, w: World, i: nat, a: nat): Verdict
    requires i < g.Size()
  {
    if g.nodes[i].kind.Agent? && !w.starts(i, a) then Fail else w.verdict(i, a)
  }

  // ---------------------------------------------------------------- state

  /** Where a node is within the current batch: not in it, waiting for its prompt, or at work. */
  datatype Phase = Idle | Waiting | Working

  /** `seen[i]` is the completion clock as it was when node `i`'s `{{prev}}` was last rendered, so
    `seen[i][f] == completed[f]` says that `i` was shown the latest outcome of `f`. */
  datatype State = State(
    outcomes: seq<Option<Verdict>>,
    attempts: seq<nat>,
    scheduled: seq<nat>,
    completed: seq<nat>,
    fired: seq<nat>,
    epoch: nat,
    steps: nat,
    seen: seq<seq<nat>>,
    phase: seq<Phase>)

  ghost predicate Shape(g: Graph, s: State) {
    var n := g.Size();
    && |s.outcomes| == n && |s.attempts| == n && |s.scheduled| == n && |s.completed| == n
    && |s.fired| == |g.edges| && |s.phase| == n && |s.seen| == n
    && forall i :: 0 <= i < n ==> |s.seen[i]| == n
  }

  function Zeros(n: nat): (z: seq<nat>)
    ensures |z| == n && forall i :: 0 <= i < n ==> z[i] == 0
  {
    seq(n, _ => 0)
  }

  function Init(g: Graph): State {
    var n := g.Size();
    State(seq(n, _ => None), Zeros(n), Zeros(n), Zeros(n), Zeros(|g.edges|), 0, 0,
          seq(n, _ => Zeros(n)), seq(n, _ => Idle))
  }

  // ---------------------------------------------------------------- what is runnable

  ghost predicate Satisfied(g: Graph, s: State, i: nat)
    requires ValidGraph(g) && Shape(g, s)
  {
    forall k: nat :: g.Gate(k, i) ==>
      s.outcomes[g.edges[k].from].Some? && g.edges[k].on.Matches(s.outcomes[g.edges[k].from].value)
  }

  ghost predicate FreshInput(g: Graph, s: State, i: nat)
    requires ValidGraph(g) && Shape(g, s) && i < g.Size()
  {
    exists k: nat :: g.Gate(k, i) && s.completed[g.edges[k].from] > s.scheduled[i]
  }

  ghost predicate Rollback(g: Graph, s: State, i: nat)
    requires ValidGraph(g) && Shape(g, s) && i < g.Size()
  {
    exists k :: 0 <= k < |g.edges| && g.edges[k].to == i && g.edges[k].feedback && s.fired[k] > s.scheduled[i]
  }

  ghost predicate IsRunnable(g: Graph, s: State, i: nat)
    requires ValidGraph(g) && Shape(g, s) && i < g.Size()
  {
    && s.attempts[i] < g.nodes[i].Cap()
    && Satisfied(g, s, i)
    && (s.scheduled[i] == 0 || FreshInput(g, s, i) || Rollback(g, s, i))
  }

  ghost predicate Ascending(b: seq<nat>) {
    forall x, y :: 0 <= x < y < |b| ==> b[x] < b[y]
  }

  /** The runnable nodes below `n`, ascending. */
  ghost function Runnable(g: Graph, s: State, n: nat): (b: seq<nat>)
    requires ValidGraph(g) && Shape(g, s) && n <= g.Size()
    ensures |b| <= n
    ensures forall x :: 0 <= x < |b| ==> b[x] < n && IsRunnable(g, s, b[x])
    ensures forall i: nat :: i < n && IsRunnable(g, s, i) ==> i in b
    ensures Ascending(b)
  {
    if n == 0 then [] else
      var rest := Runnable(g, s, n - 1);
      if IsRunnable(g, s, n - 1) then rest + [n - 1] else rest
  }

  // ---------------------------------------------------------------- operations

  datatype Op = Start(node: nat) | Render(node: nat) | Done(node: nat)

  /** Marks the edges out of `i` whose condition its verdict met. */
  function Fire(g: Graph, fired: seq<nat>, i: nat, v: Verdict, epoch: nat): (r: seq<nat>)
    requires |fired| == |g.edges|
    ensures |r| == |fired|
  {
    seq(|fired|, k requires 0 <= k < |fired| =>
      if g.edges[k].from == i && g.edges[k].on.Matches(v) then epoch else fired[k])
  }

  function Apply(g: Graph, w: World, s: State, op: Op): State
    requires op.node < g.Size() && Shape(g, s)
  {
    var i := op.node;
    match op
    case Start(_) =>
      s.(attempts := s.attempts[i := s.attempts[i] + 1],
         steps := s.steps + 1,
         scheduled := s.scheduled[i := s.epoch + 1],
         seen := s.seen[i := s.completed],
         phase := s.phase[i := if g.Par(i) then Waiting else Working])
    case Render(_) =>
      s.(seen := s.seen[i := s.completed], phase := s.phase[i := Working])
    case Done(_) =>
      var v := VerdictOf(g, w, i, s.attempts[i]);
      s.(outcomes := s.outcomes[i := Some(v)],
         epoch := s.epoch + 1,
         completed := s.completed[i := s.epoch + 1],
         fired := Fire(g, s.fired, i, v, s.epoch + 1),
         phase := s.phase[i := Idle])
  }

  lemma ApplyShape(g: Graph, w: World, s: State, op: Op)
    requires op.node < g.Size() && Shape(g, s)
    ensures Shape(g, Apply(g, w, s, op))
  {
    var t := Apply(g, w, s, op);
    assert forall i :: 0 <= i < g.Size() ==> |t.seen[i]| == g.Size();
  }

  ghost predicate InRange(g: Graph, ops: seq<Op>) {
    forall x :: 0 <= x < |ops| ==> ops[x].node < g.Size()
  }

  ghost function Play(g: Graph, w: World, s: State, ops: seq<Op>): (t: State)
    requires Shape(g, s) && InRange(g, ops)
    ensures Shape(g, t)
    decreases |ops|
  {
    if ops == [] then s
    else
      var last := |ops| - 1;
      var t := Play(g, w, s, ops[..last]);
      ApplyShape(g, w, t, ops[last]);
      Apply(g, w, t, ops[last])
  }

  lemma PlaySnoc(g: Graph, w: World, s: State, ops: seq<Op>, op: Op)
    requires Shape(g, s) && InRange(g, ops) && op.node < g.Size()
    ensures InRange(g, ops + [op])
    ensures Play(g, w, s, ops + [op]) == Apply(g, w, Play(g, w, s, ops), op)
  {
    assert (ops + [op])[..|ops|] == ops;
  }

  lemma {:induction false} PlayConcat(g: Graph, w: World, s: State, a: seq<Op>, b: seq<Op>)
    requires Shape(g, s) && InRange(g, a) && InRange(g, b)
    ensures InRange(g, a + b)
    ensures Play(g, w, s, a + b) == Play(g, w, Play(g, w, s, a), b)
    decreases |b|
  {
    if b == [] {
      assert a + b == a;
    } else {
      var last := |b| - 1;
      PlayConcat(g, w, s, a, b[..last]);
      assert a + b == a + b[..last] + [b[last]];
      PlaySnoc(g, w, s, a + b[..last], b[last]);
    }
  }

  // ---------------------------------------------------------------- one batch

  predicate Below(b: seq<nat>, n: nat) {
    forall x :: 0 <= x < |b| ==> b[x] < n
  }

  function StartOps(g: Graph, b: seq<nat>): (ops: seq<Op>)
    requires Below(b, g.Size())
  {
    if b == [] then []
    else
      var last := |b| - 1;
      StartOps(g, b[..last]) + if g.Par(b[last]) then [Start(b[last])] else [Start(b[last]), Done(b[last])]
  }

  function OfKind(g: Graph, b: seq<nat>, kind: Kind): (r: seq<nat>)
    requires Below(b, g.Size())
    ensures Below(r, g.Size())
    ensures forall i: nat :: i in r <==> i in b && i < g.Size() && g.nodes[i].kind == kind
  {
    if b == [] then []
    else
      var last := |b| - 1;
      OfKind(g, b[..last], kind) + if g.nodes[b[last]].kind == kind then [b[last]] else []
  }

  function RenderOps(b: seq<nat>): seq<Op> {
    seq(|b|, x requires 0 <= x < |b| => Render(b[x]))
  }

  function DoneOps(b: seq<nat>): seq<Op> {
    seq(|b|, x requires 0 <= x < |b| => Done(b[x]))
  }

  /** The prompt of each agent is rendered as it is launched; one that can't start fails at once. */
  function LaunchOps(w: World, attempts: seq<nat>, b: seq<nat>): seq<Op>
    requires Below(b, |attempts|)
  {
    if b == [] then []
    else
      var last := |b| - 1;
      LaunchOps(w, attempts, b[..last]) +
      if w.starts(b[last], attempts[b[last]]) then [Render(b[last])] else [Render(b[last]), Done(b[last])]
  }

  function Launched(w: World, attempts: seq<nat>, b: seq<nat>): (r: seq<nat>)
    requires Below(b, |attempts|)
    ensures Below(r, |attempts|)
    ensures forall i: nat :: i in r <==> i in b && i < |attempts| && w.starts(i, attempts[i])
  {
    if b == [] then []
    else
      var last := |b| - 1;
      Launched(w, attempts, b[..last]) + if w.starts(b[last], attempts[b[last]]) then [b[last]] else []
  }

  /** The attempts once every node of `b` has started. */
  function Bumped(attempts: seq<nat>, b: seq<nat>): (r: seq<nat>)
    ensures |r| == |attempts|
  {
    seq(|attempts|, i requires 0 <= i < |attempts| => if i in b then attempts[i] + 1 else attempts[i])
  }

  function BatchOps(g: Graph, w: World, attempts: seq<nat>, b: seq<nat>): (ops: seq<Op>)
    requires |attempts| == g.Size() && Below(b, g.Size())
  {
    var selects, agents := OfKind(g, b, Select), OfKind(g, b, Agent);
    var after := Bumped(attempts, b);
    StartOps(g, b) + RenderOps(selects) + LaunchOps(w, after, agents)
    + DoneOps(Launched(w, after, agents)) + DoneOps(selects)
  }

  lemma StartOpsSnoc(g: Graph, b: seq<nat>, k: nat)
    requires Below(b, g.Size()) && k < |b|
    ensures StartOps(g, b[..k + 1]) == StartOps(g, b[..k]) + StartOps(g, [b[k]])
  {
    var one := [b[k]];
    assert b[..k + 1][..k] == b[..k] && one[..0] == [];
    assert StartOps(g, one[..0]) == [];
  }

  lemma OfKindSnoc(g: Graph, b: seq<nat>, k: nat, kind: Kind)
    requires Below(b, g.Size()) && k < |b|
    ensures OfKind(g, b[..k + 1], kind) == OfKind(g, b[..k], kind) + if g.nodes[b[k]].kind == kind then [b[k]] else []
  {
    assert b[..k + 1][..k] == b[..k] && b[..k + 1][k] == b[k];
  }

  lemma LaunchOpsSnoc(w: World, a: seq<nat>, b: seq<nat>, k: nat)
    requires Below(b, |a|) && k < |b|
    ensures LaunchOps(w, a, b[..k + 1]) == LaunchOps(w, a, b[..k]) + LaunchOps(w, a, [b[k]])
    ensures Launched(w, a, b[..k + 1]) == Launched(w, a, b[..k]) + if w.starts(b[k], a[b[k]]) then [b[k]] else []
  {
    var one := [b[k]];
    assert b[..k + 1][..k] == b[..k] && one[..0] == [];
    assert LaunchOps(w, a, one[..0]) == [];
  }

  // ---------------------------------------------------------------- legal operations

  /** When an operation may happen: a node starts below its cap with every gate answered, an inline node
    finishes while nothing else is at work. */
  ghost predicate Legal(g: Graph, s: State, op: Op)
    requires ValidGraph(g) && Shape(g, s) && op.node < g.Size()
  {
    var i := op.node;
    match op
    case Start(_) =>
      && s.phase[i].Idle? && s.attempts[i] < g.nodes[i].Cap()
      && forall k: nat :: g.Gate(k, i) ==> s.outcomes[g.edges[k].from].Some?
    case Render(_) => s.phase[i].Waiting?
    case Done(_) =>
      && s.phase[i].Working?
      && forall j :: 0 <= j < g.Size() && j != i && s.phase[j].Working? ==> g.Par(i) && g.Par(j)
  }

  ghost predicate LegalAll(g: Graph, w: World, s: State, ops: seq<Op>)
    requires ValidGraph(g) && Shape(g, s)
    decreases |ops|
  {
    InRange(g, ops) &&
    (ops != [] ==>
      var last := |ops| - 1;
      LegalAll(g, w, s, ops[..last]) && Legal(g, Play(g, w, s, ops[..last]), ops[last]))
  }

  lemma LegalSnoc(g: Graph, w: World, s: State, ops: seq<Op>, op: Op)
    requires ValidGraph(g) && Shape(g, s) && LegalAll(g, w, s, ops)
    requires op.node < g.Size() && Legal(g, Play(g, w, s, ops), op)
    ensures LegalAll(g, w, s, ops + [op])
    ensures Play(g, w, s, ops + [op]) == Apply(g, w, Play(g, w, s, ops), op)
  {
    PlaySnoc(g, w, s, ops, op);
    assert (ops + [op])[..|ops|] == ops;
  }

  // ---------------------------------------------------------------- the invariant

  function Sum(s: seq<nat>): nat {
    if s == [] then 0 else Sum(s[..|s| - 1]) + s[|s| - 1]
  }

  lemma {:induction false} SumUpdate(s: seq<nat>, i: nat, v: nat)
    requires i < |s|
    ensures Sum(s[i := v]) == Sum(s) - s[i] + v
  {
    var last := |s| - 1;
    if i == last {
      assert s[i := v][..last] == s[..last];
    } else {
      assert s[i := v][..last] == s[..last][i := v];
      SumUpdate(s[..last], i, v);
    }
  }

  lemma {:induction false} SumMonotone(a: seq<nat>, b: seq<nat>)
    requires |a| == |b| && forall i :: 0 <= i < |a| ==> a[i] <= b[i]
    ensures Sum(a) <= Sum(b)
  {
    if a != [] {
      SumMonotone(a[..|a| - 1], b[..|b| - 1]);
    }
  }

  function Caps(g: Graph): (c: seq<nat>)
    ensures |c| == g.Size()
  {
    seq(g.Size(), i requires 0 <= i < g.Size() => g.nodes[i].Cap())
  }

  ghost predicate Counts(g: Graph, s: State)
    requires Shape(g, s)
  {
    s.steps == Sum(s.attempts) && forall i :: 0 <= i < g.Size() ==> s.attempts[i] <= g.nodes[i].Cap()
  }

  /** The clock: a completion takes a new number, no two nodes share one. */
  ghost predicate Clocked(g: Graph, s: State)
    requires Shape(g, s)
  {
    && (forall i :: 0 <= i < g.Size() ==>
      && s.completed[i] <= s.epoch && s.scheduled[i] <= s.epoch + 1
      && (s.attempts[i] == 0 <==> s.scheduled[i] == 0)
      && (s.outcomes[i].Some? <==> s.completed[i] > 0)
      && (s.attempts[i] == 0 ==> s.completed[i] == 0 && s.phase[i].Idle?)
      && (s.phase[i].Idle? ==> s.scheduled[i] <= s.completed[i])
      && (!g.Par(i) ==> match s.phase[i]
          case Idle => s.scheduled[i] == s.completed[i]
          case Waiting => false
          case Working => s.scheduled[i] == s.epoch + 1))
    && (forall i, j :: 0 <= i < j < g.Size() && s.completed[i] == s.completed[j] ==> s.completed[i] == 0)
  }

  /** A node has run only after all its gates answered. */
  ghost predicate GatesFirst(g: Graph, s: State)
    requires ValidGraph(g) && Shape(g, s)
  {
    forall k :: 0 <= k < |g.edges| && !g.edges[k].feedback && s.attempts[g.edges[k].to] > 0 ==>
      s.outcomes[g.edges[k].from].Some?
  }

  /** How `f` can complete at the very epoch `i` was scheduled at without `i` having been shown it. */
  ghost predicate Tied(g: Graph, s: State, i: nat, f: nat)
    requires Shape(g, s) && i < g.Size() && f < g.Size()
  {
    f == i || (g.Par(i) && g.Par(f)) || s.phase[i].Waiting?
  }

  ghost predicate Late(g: Graph, s: State, i: nat, f: nat, at: nat)
    requires Shape(g, s) && i < g.Size() && f < g.Size()
  {
    s.scheduled[i] <= at && (at == s.scheduled[i] ==> Tied(g, s, i, f))
  }

  /** What a node was not shown came after it was scheduled. */
  ghost predicate Shown(g: Graph, s: State)
    requires Shape(g, s)
  {
    forall i, f :: 0 <= i < g.Size() && 0 <= f < g.Size() && s.attempts[i] > 0 ==>
      s.seen[i][f] <= s.completed[f] && (s.seen[i][f] < s.completed[f] ==> Late(g, s, i, f, s.completed[f]))
  }

  /** The same of the firings of the edges into it. */
  ghost predicate ShownFirings(g: Graph, s: State)
    requires ValidGraph(g) && Shape(g, s)
  {
    forall k :: 0 <= k < |g.edges| ==>
      var i, f := g.edges[k].to, g.edges[k].from;
      && s.fired[k] <= s.completed[f]
      && (s.attempts[i] > 0 && s.seen[i][f] < s.fired[k] ==> Late(g, s, i, f, s.fired[k]))
  }

  ghost predicate Inv(g: Graph, s: State)
    requires ValidGraph(g)
  {
    Shape(g, s) && Counts(g, s) && Clocked(g, s) && GatesFirst(g, s) && Shown(g, s) && ShownFirings(g, s)
  }

  lemma InitInv(g: Graph)
    requires ValidGraph(g)
    ensures Inv(g, Init(g)) && AllIdle(g, Init(g))
  {
    SumZeros(g.Size());
    assert forall k :: 0 <= k < |g.edges| ==> Init(g).fired[k] == 0;
  }

  lemma {:induction false} SumZeros(n: nat)
    ensures Sum(Zeros(n)) == 0
  {
    if n > 0 {
      assert Zeros(n)[..n - 1] == Zeros(n - 1);
      SumZeros(n - 1);
    }
  }

  ghost predicate AllIdle(g: Graph, s: State)
    requires Shape(g, s)
  {
    forall i :: 0 <= i < g.Size() ==> s.phase[i].Idle?
  }

  lemma StartKeepsGates(g: Graph, w: World, s: State, i: nat)
    requires ValidGraph(g) && Inv(g, s) && i < g.Size() && Legal(g, s, Start(i))
    ensures Shape(g, Apply(g, w, s, Start(i))) && GatesFirst(g, Apply(g, w, s, Start(i)))
  {
    var t := Apply(g, w, s, Start(i));
    ApplyShape(g, w, s, Start(i));
    forall k | 0 <= k < |g.edges| && !g.edges[k].feedback && t.attempts[g.edges[k].to] > 0
      ensures t.outcomes[g.edges[k].from].Some?
    {
      if g.edges[k].to == i {
        assert g.Gate(k, i);
      }
    }
  }

  lemma StartKeepsShown(g: Graph, w: World, s: State, i: nat)
    requires ValidGraph(g) && Inv(g, s) && i < g.Size() && Legal(g, s, Start(i))
    ensures Shape(g, Apply(g, w, s, Start(i))) && Shown(g, Apply(g, w, s, Start(i)))
    ensures ShownFirings(g, Apply(g, w, s, Start(i)))
  {
    var t := Apply(g, w, s, Start(i));
    ApplyShape(g, w, s, Start(i));
    forall j, f | 0 <= j < g.Size() && 0 <= f < g.Size() && t.attempts[j] > 0
      ensures t.seen[j][f] <= t.completed[f] && (t.seen[j][f] < t.completed[f] ==> Late(g, t, j, f, t.completed[f]))
    {
      if j != i {
        assert s.attempts[j] > 0 && t.seen[j] == s.seen[j];
      }
    }
  }

  lemma StartKeepsInv(g: Graph, w: World, s: State, i: nat)
    requires ValidGraph(g) && Inv(g, s) && i < g.Size() && Legal(g, s, Start(i))
    ensures Inv(g, Apply(g, w, s, Start(i)))
  {
    hide Shown, ShownFirings, GatesFirst;
    SumUpdate(s.attempts, i, s.attempts[i] + 1);
    StartKeepsGates(g, w, s, i);
    StartKeepsShown(g, w, s, i);
  }

  lemma RenderKeepsInv(g: Graph, w: World, s: State, i: nat)
    requires ValidGraph(g) && Inv(g, s) && i < g.Size() && Legal(g, s, Render(i))
    ensures Inv(g, Apply(g, w, s, Render(i)))
  {
    var t := Apply(g, w, s, Render(i));
    ApplyShape(g, w, s, Render(i));
    forall j, f | 0 <= j < g.Size() && 0 <= f < g.Size() && t.attempts[j] > 0
      ensures t.seen[j][f] <= t.completed[f] && (t.seen[j][f] < t.completed[f] ==> Late(g, t, j, f, t.completed[f]))
    {
      if j != i {
        assert t.seen[j] == s.seen[j];
      }
    }
  }

  /** A completion numbered `epoch + 1` is late for every node that was scheduled. */
  lemma NewCompletionIsLate(g: Graph, w: World, s: State, i: nat, j: nat)
    requires ValidGraph(g) && Inv(g, s) && i < g.Size() && Legal(g, s, Done(i))
    requires j < g.Size() && s.attempts[j] > 0
    ensures Shape(g, Apply(g, w, s, Done(i))) && Late(g, Apply(g, w, s, Done(i)), j, i, s.epoch + 1)
  {
    ApplyShape(g, w, s, Done(i));
  }

  lemma DoneKeepsClock(g: Graph, w: World, s: State, i: nat)
    requires ValidGraph(g) && Inv(g, s) && i < g.Size() && Legal(g, s, Done(i))
    ensures Shape(g, Apply(g, w, s, Done(i))) && Clocked(g, Apply(g, w, s, Done(i)))
  {
    hide Shown, ShownFirings, GatesFirst, Counts;
    ApplyShape(g, w, s, Done(i));
  }

  lemma DoneKeepsShown(g: Graph, w: World, s: State, i: nat)
    requires ValidGraph(g) && Inv(g, s) && i < g.Size() && Legal(g, s, Done(i))
    ensures Shape(g, Apply(g, w, s, Done(i))) && Shown(g, Apply(g, w, s, Done(i)))
  {
    hide ShownFirings, GatesFirst, Counts;
    var t := Apply(g, w, s, Done(i));
    ApplyShape(g, w, s, Done(i));
    forall j, f | 0 <= j < g.Size() && 0 <= f < g.Size() && t.attempts[j] > 0
      ensures t.seen[j][f] <= t.completed[f] && (t.seen[j][f] < t.completed[f] ==> Late(g, t, j, f, t.completed[f]))
    {
      if f == i {
        NewCompletionIsLate(g, w, s, i, j);
      } else {
        assert t.completed[f] == s.completed[f];
      }
    }
  }

  lemma DoneKeepsFirings(g: Graph, w: World, s: State, i: nat)
    requires ValidGraph(g) && Inv(g, s) && i < g.Size() && Legal(g, s, Done(i))
    ensures Shape(g, Apply(g, w, s, Done(i))) && ShownFirings(g, Apply(g, w, s, Done(i)))
  {
    hide Shown, GatesFirst, Counts;
    var t := Apply(g, w, s, Done(i));
    ApplyShape(g, w, s, Done(i));
    forall k | 0 <= k < |g.edges|
      ensures t.fired[k] <= t.completed[g.edges[k].from]
      ensures t.attempts[g.edges[k].to] > 0 && t.seen[g.edges[k].to][g.edges[k].from] < t.fired[k] ==>
        Late(g, t, g.edges[k].to, g.edges[k].from, t.fired[k])
    {
      if t.fired[k] != s.fired[k] && s.attempts[g.edges[k].to] > 0 {
        NewCompletionIsLate(g, w, s, i, g.edges[k].to);
      }
    }
  }

  lemma DoneKeepsInv(g: Graph, w: World, s: State, i: nat)
    requires ValidGraph(g) && Inv(g, s) && i < g.Size() && Legal(g, s, Done(i))
    ensures Inv(g, Apply(g, w, s, Done(i)))
  {
    hide Shown, ShownFirings, Clocked;
    DoneKeepsClock(g, w, s, i);
    DoneKeepsShown(g, w, s, i);
    DoneKeepsFirings(g, w, s, i);
    assert Counts(g, Apply(g, w, s, Done(i))) && GatesFirst(g, Apply(g, w, s, Done(i)));
  }

  lemma {:induction false} PlayKeepsInv(g: Graph, w: World, s: State, ops: seq<Op>)
    requires ValidGraph(g) && Inv(g, s) && LegalAll(g, w, s, ops)
    ensures Inv(g, Play(g, w, s, ops))
    decreases |ops|
  {
    if ops != [] {
      var last := |ops| - 1;
      PlayKeepsInv(g, w, s, ops[..last]);
      var t := Play(g, w, s, ops[..last]);
      match ops[last]
      case Start(i) => StartKeepsInv(g, w, t, i);
      case Render(i) => RenderKeepsInv(g, w, t, i);
      case Done(i) => DoneKeepsInv(g, w, t, i);
    }
  }
}
