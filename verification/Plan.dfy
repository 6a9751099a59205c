/** The plan of a graph file: which edges gate (feedforward) and which are rollbacks (feedback).
  An edge is feedback when its target already reaches its source through the feedforward edges
  declared before it. */
module Plan {
  import opened Wrappers

  type Arc = (nat, nat)

  datatype PlanError = NoNodes | NoStart

  // ---------------------------------------------------------------- paths

  ghost predicate IsPath(dag: seq<Arc>, p: seq<nat>) {
    |p| > 0 && forall i {:trigger p[i]} :: 0 <= i < |p| - 1 ==> (p[i], p[i + 1]) in dag
  }

  ghost predicate PathBetween(dag: seq<Arc>, p: seq<nat>, a: nat, b: nat) {
    IsPath(dag, p) && p[0] == a && p[|p| - 1] == b
  }

  /** A path of zero or more arcs leads from `a` to `b`. */
  ghost predicate Connects(dag: seq<Arc>, a: nat, b: nat) {
    exists p :: PathBetween(dag, p, a, b)
  }

  ghost predicate Acyclic(dag: seq<Arc>) {
    forall p :: IsPath(dag, p) && |p| > 1 ==> p[0] != p[|p| - 1]
  }

  lemma ConnectsSelf(dag: seq<Arc>, a: nat)
    ensures Connects(dag, a, a)
  {
    assert PathBetween(dag, [a], a, a);
  }

  lemma ConnectsStep(dag: seq<Arc>, a: nat, b: nat, c: nat)
    requires Connects(dag, a, b) && (b, c) in dag
    ensures Connects(dag, a, c)
  {
    var p :| PathBetween(dag, p, a, b);
    assert PathBetween(dag, p + [c], a, c);
  }

  /** A set closed under the arcs holds every node reachable from one of its members. */
  lemma {:induction false} ClosedHoldsPath(dag: seq<Arc>, closed: set<nat>, p: seq<nat>)
    requires forall e :: e in dag && e.0 in closed ==> e.1 in closed
    requires IsPath(dag, p) && p[0] in closed
    ensures p[|p| - 1] in closed
    decreases |p|
  {
    if |p| > 1 {
      assert (p[0], p[1]) in dag;
      ClosedHoldsPath(dag, closed, p[1..]);
    }
  }

  lemma PathMonotone(dag: seq<Arc>, more: seq<Arc>, a: nat, b: nat)
    requires forall e :: e in dag ==> e in more
    requires Connects(dag, a, b)
    ensures Connects(more, a, b)
  {
    var p :| PathBetween(dag, p, a, b);
    assert PathBetween(more, p, a, b);
  }

  /** Everything found so far is reachable, and what is expanded has its targets found. */
  ghost predicate SearchInv(dag: seq<Arc>, from: nat, found: set<nat>, seen: set<nat>) {
    && from in found && seen <= found
    && (forall n :: n in found ==> Connects(dag, from, n))
    && (forall e :: e in dag && e.0 in seen ==> e.1 in found)
  }

  lemma SearchStep(dag: seq<Arc>, from: nat, found: set<nat>, seen: set<nat>, n: nat)
    requires SearchInv(dag, from, found, seen) && n in found
    ensures SearchInv(dag, from, found + Targets(dag, n), seen + {n})
  {
    forall m | m in Targets(dag, n)
      ensures Connects(dag, from, m)
    {
      assert (n, m) in dag;
      ConnectsStep(dag, from, n, m);
    }
  }

  lemma SearchDone(dag: seq<Arc>, from: nat, want: nat, seen: set<nat>)
    requires SearchInv(dag, from, seen, seen) && want !in seen
    ensures !Connects(dag, from, want)
  {
    if Connects(dag, from, want) {
      var p :| PathBetween(dag, p, from, want);
      ClosedHoldsPath(dag, seen, p);
      assert false;
    }
  }

  function Targets(dag: seq<Arc>, n: nat): set<nat> {
    set e | e in dag && e.0 == n :: e.1
  }

  function Elements(s: seq<nat>): set<nat> {
    set m | m in s
  }

  method PushTargets(dag: seq<Arc>, n: nat, stack: seq<nat>) returns (pushed: seq<nat>)
    ensures Elements(pushed) == Elements(stack) + Targets(dag, n)
  {
    pushed := stack;
    var k := 0;
    while k < |dag|
      invariant 0 <= k <= |dag|
      invariant Elements(pushed) == Elements(stack) + Targets(dag[..k], n)
    {
      assert dag[..k + 1] == dag[..k] + [dag[k]];
      if dag[k].0 == n {
        assert Targets(dag[..k + 1], n) == Targets(dag[..k], n) + {dag[k].1};
        assert Elements(pushed + [dag[k].1]) == Elements(pushed) + {dag[k].1};
        pushed := pushed + [dag[k].1];
      } else {
        assert Targets(dag[..k + 1], n) == Targets(dag[..k], n);
      }
      k := k + 1;
    }
    assert dag[..k] == dag;
  }

  /** The depth-first search decides whether a path exists. */
  method Reaches(dag: seq<Arc>, from: nat, want: nat) returns (found: bool)
    ensures found <==> Connects(dag, from, want)
  {
    var stack: seq<nat> := [from];
    var seen: set<nat> := {};
    ghost var nodes := {from} + set e | e in dag :: e.1;
    ConnectsSelf(dag, from);
    while stack != []
      invariant SearchInv(dag, from, Elements(stack) + seen, seen)
      invariant Elements(stack) <= nodes && want !in seen
      decreases nodes - seen, |stack|
    {
      var n := stack[|stack| - 1];
      var rest := stack[..|stack| - 1];
      assert Elements(stack) == Elements(rest) + {n};
      stack := rest;
      if n == want {
        return true;
      }
      if n in seen {
        assert Elements(rest) + {n} + seen == Elements(rest) + seen;
        continue;
      }
      SearchStep(dag, from, Elements(rest) + {n} + seen, seen, n);
      stack := PushTargets(dag, n, rest);
      assert Elements(rest) + {n} + seen + Targets(dag, n) == Elements(stack) + (seen + {n});
      assert n in nodes - seen;
      seen := seen + {n};
    }
    assert Elements(stack) + seen == seen;
    SearchDone(dag, from, want, seen);
    return false;
  }

  // ---------------------------------------------------------------- classification

  /** The arcs not marked feedback, in order. */
  function Forward(arcs: seq<Arc>, feedback: seq<bool>): (dag: seq<Arc>)
    requires |arcs| == |feedback|
    ensures forall e :: e in dag <==> exists k :: 0 <= k < |arcs| && arcs[k] == e && !feedback[k]
  {
    if arcs == [] then []
    else
      var last := |arcs| - 1;
      var rest := Forward(arcs[..last], feedback[..last]);
      if feedback[last] then rest else rest + [arcs[last]]
  }

  /** Edge `k` is feedback exactly when its target reaches its source through the forward arcs before it. */
  ghost predicate Greedy(arcs: seq<Arc>, feedback: seq<bool>) {
    |arcs| == |feedback| &&
    forall k {:trigger feedback[k]} :: 0 <= k < |arcs| ==>
      feedback[k] == Connects(Forward(arcs[..k], feedback[..k]), arcs[k].1, arcs[k].0)
  }

  /** Is `i` a start node: no feedforward edge into it. */
  predicate IsStart(arcs: seq<Arc>, feedback: seq<bool>, i: nat)
    requires |arcs| == |feedback|
  {
    forall k :: 0 <= k < |arcs| && !feedback[k] ==> arcs[k].1 != i
  }

  predicate IsTerminal(arcs: seq<Arc>, feedback: seq<bool>, i: nat)
    requires |arcs| == |feedback|
  {
    forall k :: 0 <= k < |arcs| && !feedback[k] ==> arcs[k].0 != i
  }

  lemma GreedySnoc(arcs: seq<Arc>, feedback: seq<bool>, arc: Arc, back: bool)
    requires Greedy(arcs, feedback)
    requires back == Connects(Forward(arcs, feedback), arc.1, arc.0)
    ensures Greedy(arcs + [arc], feedback + [back])
    ensures Forward(arcs + [arc], feedback + [back]) == Forward(arcs, feedback) + if back then [] else [arc]
  {
    var a, f := arcs + [arc], feedback + [back];
    assert a[..|arcs|] == arcs && f[..|arcs|] == feedback;
    forall k | 0 <= k < |a|
      ensures f[k] == Connects(Forward(a[..k], f[..k]), a[k].1, a[k].0)
    {
      if k < |arcs| {
        assert a[..k] == arcs[..k] && f[..k] == feedback[..k];
        assert f[k] == feedback[k] && a[k] == arcs[k];
      }
    }
  }

  /** Feedback arcs, greedily in declaration order. */
  method MarkFeedback(arcs: seq<Arc>) returns (feedback: seq<bool>)
    ensures Greedy(arcs, feedback)
  {
    feedback := [];
    var dag: seq<Arc> := [];
    var k := 0;
    while k < |arcs|
      invariant 0 <= k == |feedback| <= |arcs|
      invariant Greedy(arcs[..k], feedback) && dag == Forward(arcs[..k], feedback)
    {
      hide Greedy, Forward, Connects;
      var back := Reaches(dag, arcs[k].1, arcs[k].0);
      GreedySnoc(arcs[..k], feedback, arcs[k], back);
      assert arcs[..k + 1] == arcs[..k] + [arcs[k]];
      assert dag + [] == dag;
      feedback := feedback + [back];
      if !back {
        dag := dag + [arcs[k]];
      }
      k := k + 1;
    }
    assert arcs[..k] == arcs;
  }

  method CountStarts(n: nat, arcs: seq<Arc>, feedback: seq<bool>) returns (starts: nat)
    requires |arcs| == |feedback|
    ensures starts == 0 <==> forall j: nat :: j < n ==> !IsStart(arcs, feedback, j)
  {
    starts := 0;
    var i: nat := 0;
    while i < n
      invariant i <= n
      invariant starts == 0 <==> forall j: nat :: j < i ==> !IsStart(arcs, feedback, j)
    {
      if IsStart(arcs, feedback, i) {
        starts := starts + 1;
      }
      i := i + 1;
    }
  }

  /** The part of `validate` after names are resolved. */
  method Classify(n: nat, arcs: seq<Arc>) returns (r: Result<seq<bool>, PlanError>)
    requires forall e :: e in arcs ==> e.0 < n && e.1 < n
    ensures r == Failure(NoNodes) <==> n == 0
    ensures r.Success? ==> Greedy(arcs, r.value)
    ensures r == Failure(NoStart) ==>
      exists feedback :: Greedy(arcs, feedback) && forall i: nat :: i < n ==> !IsStart(arcs, feedback, i)
  {
    if n == 0 {
      return Failure(NoNodes);
    }
    var feedback := MarkFeedback(arcs);
    var starts := CountStarts(n, arcs, feedback);
    if starts == 0 {
      return Failure(NoStart);
    }
    return Success(feedback);
  }

  // ---------------------------------------------------------------- ranks

  /** A rank that every forward arc increases: adding a forward arc lifts everything its target reaches
    above its source. */
  ghost function Rank(arcs: seq<Arc>, feedback: seq<bool>, x: nat): nat
    requires |arcs| == |feedback|
    decreases |arcs|
  {
    if arcs == [] then 0
    else
      var last := |arcs| - 1;
      var before, marks := arcs[..last], feedback[..last];
      var r := Rank(before, marks, x);
      if !feedback[last] && Connects(Forward(before, marks), arcs[last].1, x)
      then r + Rank(before, marks, arcs[last].0) + 1
      else r
  }

  lemma GreedyPrefix(arcs: seq<Arc>, feedback: seq<bool>)
    requires Greedy(arcs, feedback) && arcs != []
    ensures Greedy(arcs[..|arcs| - 1], feedback[..|arcs| - 1])
  {
    var last := |arcs| - 1;
    forall k | 0 <= k < last
      ensures feedback[..last][k] ==
        Connects(Forward(arcs[..last][..k], feedback[..last][..k]), arcs[..last][k].1, arcs[..last][k].0)
    {
      assert arcs[..last][..k] == arcs[..k] && feedback[..last][..k] == feedback[..k];
      assert feedback[k] == feedback[..last][k];
    }
  }

  lemma {:induction false} RankIncreases(arcs: seq<Arc>, feedback: seq<bool>, e: Arc)
    requires Greedy(arcs, feedback) && e in Forward(arcs, feedback)
    ensures Rank(arcs, feedback, e.0) < Rank(arcs, feedback, e.1)
    decreases |arcs|
  {
    var last := |arcs| - 1;
    var before, marks := arcs[..last], feedback[..last];
    var dag := Forward(before, marks);
    GreedyPrefix(arcs, feedback);
    if e in dag {
      RankIncreases(before, marks, e);
      if !feedback[last] && Connects(dag, arcs[last].1, e.0) {
        assert (e.0, e.1) == e;
        ConnectsStep(dag, arcs[last].1, e.0, e.1);
      }
    } else {
      assert e == arcs[last] && !feedback[last];
      ConnectsSelf(dag, e.1);
    }
  }

  lemma {:induction false} RankAlongPath(arcs: seq<Arc>, feedback: seq<bool>, p: seq<nat>)
    requires Greedy(arcs, feedback) && IsPath(Forward(arcs, feedback), p)
    ensures Rank(arcs, feedback, p[0]) + |p| - 1 <= Rank(arcs, feedback, p[|p| - 1])
    decreases |p|
  {
    if |p| > 1 {
      RankIncreases(arcs, feedback, (p[0], p[1]));
      RankAlongPath(arcs, feedback, p[1..]);
    }
  }

  /** Removing the feedback arcs leaves a DAG. */
  lemma ForwardIsAcyclic(arcs: seq<Arc>, feedback: seq<bool>)
    requires Greedy(arcs, feedback)
    ensures Acyclic(Forward(arcs, feedback))
  {
    forall p | IsPath(Forward(arcs, feedback), p) && |p| > 1
      ensures p[0] != p[|p| - 1]
    {
      RankAlongPath(arcs, feedback, p);
    }
  }

  lemma {:induction false} ForwardGrows(arcs: seq<Arc>, feedback: seq<bool>, k: nat, e: Arc)
    requires |arcs| == |feedback| && k <= |arcs|
    requires e in Forward(arcs[..k], feedback[..k])
    ensures e in Forward(arcs, feedback)
  {
    var j :| 0 <= j < k && arcs[..k][j] == e && !feedback[..k][j];
    assert arcs[j] == e && !feedback[j];
  }

  /** The split is tight: an edge is feedback exactly when giving it back to the feedforward part would
    close a cycle there. */
  lemma FeedbackIffClosesCycle(arcs: seq<Arc>, feedback: seq<bool>, k: nat)
    requires Greedy(arcs, feedback) && k < |arcs|
    ensures feedback[k] <==> Connects(Forward(arcs, feedback), arcs[k].1, arcs[k].0)
  {
    var dag := Forward(arcs, feedback);
    if feedback[k] {
      forall e | e in Forward(arcs[..k], feedback[..k])
        ensures e in dag
      {
        ForwardGrows(arcs, feedback, k, e);
      }
      PathMonotone(Forward(arcs[..k], feedback[..k]), dag, arcs[k].1, arcs[k].0);
    } else if Connects(dag, arcs[k].1, arcs[k].0) {
      var p :| PathBetween(dag, p, arcs[k].1, arcs[k].0);
      RankAlongPath(arcs, feedback, p);
      RankIncreases(arcs, feedback, arcs[k]);
      assert false;
    }
  }

  /** Among the first `n` nodes one has the least rank, and one the greatest. */
  lemma {:induction false} Extremes(arcs: seq<Arc>, feedback: seq<bool>, n: nat) returns (low: nat, high: nat)
    requires |arcs| == |feedback| && n > 0
    ensures low < n && high < n
    ensures forall i: nat :: i < n ==>
      Rank(arcs, feedback, low) <= Rank(arcs, feedback, i) <= Rank(arcs, feedback, high)
  {
    if n == 1 {
      low, high := 0, 0;
    } else {
      low, high := Extremes(arcs, feedback, n - 1);
      if Rank(arcs, feedback, n - 1) < Rank(arcs, feedback, low) {
        low := n - 1;
      }
      if Rank(arcs, feedback, n - 1) > Rank(arcs, feedback, high) {
        high := n - 1;
      }
    }
  }

  /** So the "no start node" refusal can't happen, and the terminal set `finish` reads is never empty. */
  lemma StartAndTerminalExist(n: nat, arcs: seq<Arc>, feedback: seq<bool>)
    requires n > 0 && Greedy(arcs, feedback)
    requires forall e :: e in arcs ==> e.0 < n && e.1 < n
    ensures exists i: nat :: i < n && IsStart(arcs, feedback, i)
    ensures exists i: nat :: i < n && IsTerminal(arcs, feedback, i)
  {
    var low, high := Extremes(arcs, feedback, n);
    forall k | 0 <= k < |arcs| && !feedback[k]
      ensures arcs[k].1 != low && arcs[k].0 != high
    {
      assert arcs[k] in arcs;
      RankIncreases(arcs, feedback, arcs[k]);
    }
    assert IsStart(arcs, feedback, low) && IsTerminal(arcs, feedback, high);
  }

  /** What `Classify` can return: a plan for every graph with a node. */
  lemma NoStartIsUnreachable(n: nat, arcs: seq<Arc>)
    requires n > 0
    requires forall e :: e in arcs ==> e.0 < n && e.1 < n
    ensures !exists feedback :: Greedy(arcs, feedback) && forall i: nat :: i < n ==> !IsStart(arcs, feedback, i)
  {
    forall feedback | Greedy(arcs, feedback)
      ensures exists i: nat :: i < n && IsStart(arcs, feedback, i)
    {
      StartAndTerminalExist(n, arcs, feedback);
    }
  }
}
