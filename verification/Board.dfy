/** The shared task list: dependency edges, atomic claims, and what no sequence of operations can change. */
module Board {
  import opened Wrappers

  datatype TaskStatus = Open | Claimed | Done | Failed

  /** A task's number is its place in the list, as tasks are never deleted. */
  datatype Task = Task(tree: nat, author: nat, after: set<nat>, status: TaskStatus, claimedBy: Option<nat>)

  datatype ClaimRefused = NotFound | NotOpen(status: TaskStatus, holder: Option<nat>) | NotYours(author: nat) | Blocked(on: set<nat>)

  type Tasks = seq<Task>

  // ---------------------------------------------------------------- what each operation does

  function Unmet(ts: Tasks, id: nat): set<nat>
    requires id < |ts|
  {
    set d | d in ts[id].after && d < |ts| && ts[d].status != Done
  }

  /** Why task `id` can't be claimed, if it can't. */
  function Refused(ts: Tasks, tree: nat, authors: seq<nat>, id: nat): Option<ClaimRefused> {
    if id >= |ts| || ts[id].tree != tree then Some(NotFound)
    else if ts[id].status != Open then Some(NotOpen(ts[id].status, ts[id].claimedBy))
    else if ts[id].author !in authors then Some(NotYours(ts[id].author))
    else if Unmet(ts, id) != {} then Some(Blocked(Unmet(ts, id)))
    else None
  }

  predicate AllIn(ts: Tasks, tree: nat, after: seq<nat>) {
    forall k :: 0 <= k < |after| ==> after[k] < |ts| && ts[after[k]].tree == tree
  }

  function Add(ts: Tasks, tree: nat, author: nat, after: seq<nat>): Tasks {
    if AllIn(ts, tree, after) then ts + [Task(tree, author, (set d | d in after), Open, None)] else ts
  }

  function Hold(ts: Tasks, id: nat, claimer: nat): Tasks {
    if id < |ts| && ts[id].status == Open then ts[id := ts[id].(status := Claimed, claimedBy := Some(claimer))] else ts
  }

  predicate Holds(ts: Tasks, claimer: nat, id: nat) {
    id < |ts| && ts[id].claimedBy == Some(claimer) && ts[id].status == Claimed
  }

  function Finish(ts: Tasks, id: nat, claimer: nat, failed: bool): Tasks {
    if Holds(ts, claimer, id) then ts[id := ts[id].(status := if failed then Failed else Done)] else ts
  }

  function Release(ts: Tasks, agent: nat): Tasks {
    seq(|ts|, i requires 0 <= i < |ts| => if Holds(ts, agent, i) then ts[i].(status := Open, claimedBy := None) else ts[i])
  }

  /** What a claim leaves: the task asked for, or the first that isn't refused. */
  function ClaimTask(ts: Tasks, tree: nat, claimer: nat, authors: seq<nat>, id: Option<nat>): Tasks {
    match id
    case Some(k) => if Refused(ts, tree, authors, k).Some? then ts else Hold(ts, k, claimer)
    case None =>
      var k := FirstFree(ts, tree, authors, 0);
      if k == |ts| then ts else Hold(ts, k, claimer)
  }

  function FirstFree(ts: Tasks, tree: nat, authors: seq<nat>, from: nat): (k: nat)
    requires from <= |ts|
    ensures from <= k <= |ts|
    ensures k < |ts| ==> Refused(ts, tree, authors, k) == None
    ensures forall j :: from <= j < k ==> Refused(ts, tree, authors, j).Some?
    decreases |ts| - from
  {
    if from == |ts| || Refused(ts, tree, authors, from) == None then from else FirstFree(ts, tree, authors, from + 1)
  }

  class TaskList {
    var tasks: Tasks

    constructor ()
      ensures tasks == []
    {
      tasks := [];
    }

    /** Every task it waits for must be a task of the same tree. */
    method AddTask(tree: nat, author: nat, after: seq<nat>) returns (id: Option<nat>)
      modifies this
      ensures tasks == Add(old(tasks), tree, author, after)
      ensures id == if AllIn(old(tasks), tree, after) then Some(|old(tasks)|) else None
      ensures id.None? ==> tasks == old(tasks) && exists d :: d in after && (d >= |tasks| || tasks[d].tree != tree)
      ensures id.Some? ==>
        && (forall d :: d in after ==> d < |old(tasks)| && old(tasks)[d].tree == tree)
        && tasks == old(tasks) + [Task(tree, author, (set d | d in after), Open, None)] && id.value == |old(tasks)|
    {
      var k := 0;
      while k < |after|
        invariant 0 <= k <= |after| && AllIn(tasks, tree, after[..k])
      {
        assert after[k] in after;
        if after[k] >= |tasks| || tasks[after[k]].tree != tree {
          return None;
        }
        k := k + 1;
      }
      assert after[..k] == after;
      tasks := tasks + [Task(tree, author, (set d | d in after), Open, None)];
      return Some(|tasks| - 1);
    }

    /** The rows a claim without a number picks from: open, in the tree, nothing it waits for undone. */
    method Ready(tree: nat) returns (open: seq<nat>)
      ensures forall i, j :: 0 <= i < j < |open| ==> open[i] < open[j]
      ensures forall i :: 0 <= i < |open| ==> open[i] < |tasks|
      ensures forall id: nat :: id in open <==>
        id < |tasks| && tasks[id].tree == tree && tasks[id].status == Open && Unmet(tasks, id) == {}
    {
      open := [];
      var id: nat := 0;
      while id < |tasks|
        invariant id <= |tasks|
        invariant forall i, j :: 0 <= i < j < |open| ==> open[i] < open[j]
        invariant forall i :: 0 <= i < |open| ==> open[i] < id
        invariant forall k: nat :: k in open <==>
          k < id && tasks[k].tree == tree && tasks[k].status == Open && Unmet(tasks, k) == {}
      {
        if tasks[id].tree == tree && tasks[id].status == Open && Unmet(tasks, id) == {} {
          open := open + [id];
        }
        id := id + 1;
      }
    }

    /** Claims the task asked for, or the oldest that can be; says why not. */
    method Claim(tree: nat, claimer: nat, authors: seq<nat>, id: Option<nat>) returns (r: ClaimResult)
      modifies this
      ensures tasks == ClaimTask(old(tasks), tree, claimer, authors, id)
      ensures id.Some? ==> match Refused(old(tasks), tree, authors, id.value)
        case Some(why) => r == NotTaken(Some(why))
        case None => r == Taken(id.value)
      ensures id.None? ==> match r
        case Taken(k) => Refused(old(tasks), tree, authors, k) == None &&
          forall j: nat :: j < k ==> Refused(old(tasks), tree, authors, j).Some?
        case NotTaken(why) => why == None && forall j: nat :: Refused(old(tasks), tree, authors, j).Some?
      ensures match r
        case Taken(k) =>
          && k < |old(tasks)| && (id.Some? ==> k == id.value)
          && tasks == old(tasks)[k := old(tasks)[k].(status := Claimed, claimedBy := Some(claimer))]
        case NotTaken(_) => tasks == old(tasks)
    {
      var chosen: nat;
      match id {
        case Some(k) =>
          if k >= |tasks| || tasks[k].tree != tree {
            return NotTaken(Some(NotFound));
          }
          if tasks[k].status != Open {
            return NotTaken(Some(NotOpen(tasks[k].status, tasks[k].claimedBy)));
          }
          if tasks[k].author !in authors {
            return NotTaken(Some(NotYours(tasks[k].author)));
          }
          var blocked := Unmet(tasks, k);
          if blocked != {} {
            return NotTaken(Some(Blocked(blocked)));
          }
          chosen := k;
        case None =>
          var open := Ready(tree);
          var x := 0;
          while x < |open| && tasks[open[x]].author !in authors
            invariant 0 <= x <= |open|
            invariant forall y :: 0 <= y < x ==> tasks[open[y]].author !in authors
          {
            x := x + 1;
          }
          FirstReady(tasks, tree, authors, open, x);
          if x == |open| {
            return NotTaken(None);
          }
          chosen := open[x];
      }
      tasks := tasks[chosen := tasks[chosen].(status := Claimed, claimedBy := Some(claimer))];
      return Taken(chosen);
    }

    /** Finishes a task `claimer` holds. */
    method FinishTask(id: nat, claimer: nat, failed: bool) returns (held: bool)
      modifies this
      ensures tasks == Finish(old(tasks), id, claimer, failed) && held == Holds(old(tasks), claimer, id)
      ensures held <==> id < |old(tasks)| && old(tasks)[id].status == Claimed && old(tasks)[id].claimedBy == Some(claimer)
      ensures held && !failed ==> tasks == old(tasks)[id := old(tasks)[id].(status := Done)]
      ensures held && failed ==> tasks == old(tasks)[id := old(tasks)[id].(status := Failed)]
      ensures !held ==> tasks == old(tasks)
    {
      held := id < |tasks| && tasks[id].claimedBy == Some(claimer) && tasks[id].status == Claimed;
      if held {
        tasks := tasks[id := tasks[id].(status := if failed then Failed else Done)];
      }
    }

    /** Puts the tasks `agent` holds back to open. */
    method ReleaseClaims(agent: nat) returns (n: nat)
      modifies this
      ensures tasks == Release(old(tasks), agent)
      ensures n == |set i: nat | i < |old(tasks)| && Holds(old(tasks), agent, i)|
      ensures |tasks| == |old(tasks)| && forall i :: 0 <= i < |tasks| ==>
        var was := old(tasks)[i];
        tasks[i] == if was.status == Claimed && was.claimedBy == Some(agent) then was.(status := Open, claimedBy := None) else was
    {
      ghost var was := tasks;
      n := 0;
      var i := 0;
      ghost var freed: set<nat> := {};
      while i < |tasks|
        invariant 0 <= i <= |tasks| == |was|
        invariant forall k :: 0 <= k < |was| ==> tasks[k] == if k < i then Release(was, agent)[k] else was[k]
        invariant freed == set k: nat | k < i && Holds(was, agent, k)
        invariant n == |freed|
      {
        if tasks[i].claimedBy == Some(agent) && tasks[i].status == Claimed {
          tasks := tasks[i := tasks[i].(status := Open, claimedBy := None)];
          freed := freed + {i};
          n := n + 1;
        }
        i := i + 1;
      }
      assert freed == set k: nat | k < |was| && Holds(was, agent, k);
    }
  }

  datatype ClaimResult = Taken(id: nat) | NotTaken(why: Option<ClaimRefused>)

  /** The first ready task by one of the authors is the first that isn't refused. */
  lemma FirstReady(ts: Tasks, tree: nat, authors: seq<nat>, open: seq<nat>, x: nat)
    requires forall i, j :: 0 <= i < j < |open| ==> open[i] < open[j]
    requires forall i :: 0 <= i < |open| ==> open[i] < |ts|
    requires forall id: nat :: id in open <==>
      id < |ts| && ts[id].tree == tree && ts[id].status == Open && Unmet(ts, id) == {}
    requires x <= |open| && forall y :: 0 <= y < x ==> ts[open[y]].author !in authors
    requires x < |open| ==> ts[open[x]].author in authors
    ensures FirstFree(ts, tree, authors, 0) == if x < |open| then open[x] else |ts|
    ensures x == |open| ==> forall j: nat :: Refused(ts, tree, authors, j).Some?
  {
    hide Unmet;
    var k := FirstFree(ts, tree, authors, 0);
    if x < |open| {
      assert open[x] in open && Refused(ts, tree, authors, open[x]) == None;
    }
    if k < |ts| {
      assert k in open;
      var y :| 0 <= y < |open| && open[y] == k;
      assert x < |open|;
    }
  }

  // ---------------------------------------------------------------- every sequence of operations

  datatype Op =
    | AddOp(tree: nat, author: nat, after: seq<nat>)
    | ClaimOp(tree: nat, claimer: nat, authors: seq<nat>, id: Option<nat>)
    | FinishOp(task: nat, claimer: nat, failed: bool)
    | ReleaseOp(agent: nat)

  function Do(ts: Tasks, op: Op): Tasks {
    match op
    case AddOp(tree, author, after) => Add(ts, tree, author, after)
    case ClaimOp(tree, claimer, authors, id) => ClaimTask(ts, tree, claimer, authors, id)
    case FinishOp(id, claimer, failed) => Finish(ts, id, claimer, failed)
    case ReleaseOp(agent) => Release(ts, agent)
  }

  function DoAll(ts: Tasks, ops: seq<Op>): Tasks
    decreases |ops|
  {
    if ops == [] then ts else DoAll(Do(ts, ops[0]), ops[1..])
  }

  /** A task waits for older tasks of its tree only; one that left the open state had all of them done, and
    has someone's name on it. */
  ghost predicate Ordered(ts: Tasks) {
    forall i: nat, d: nat {:trigger d in ts[i].after} :: i < |ts| && d in ts[i].after ==> d < i && ts[d].tree == ts[i].tree
  }

  ghost predicate Met(ts: Tasks)
    requires Ordered(ts)
  {
    forall i: nat, d: nat {:trigger d in ts[i].after} :: i < |ts| && d in ts[i].after && ts[i].status != Open ==> ts[d].status == Done
  }

  ghost predicate Named(ts: Tasks) {
    forall i :: 0 <= i < |ts| ==> (ts[i].status == Open <==> ts[i].claimedBy == None)
  }

  /** What no operation changes: who wrote a task, what it waits for, and a done or failed end. */
  ghost predicate Grows(ts: Tasks, later: Tasks) {
    && |ts| <= |later|
    && forall i :: 0 <= i < |ts| ==>
         && later[i].tree == ts[i].tree && later[i].author == ts[i].author && later[i].after == ts[i].after
         && (ts[i].status in {Done, Failed} ==> later[i] == ts[i])
  }

  ghost predicate Claimable(ts: Tasks, tree: nat, authors: seq<nat>, k: nat)
    requires Ordered(ts) && k < |ts|
  {
    && ts[k].tree == tree && ts[k].status == Open && ts[k].author in authors
    && forall d: nat :: d in ts[k].after ==> ts[d].status == Done
  }

  /** A task isn't refused exactly when it is open in the tree, by one of the authors, and all it waits for is
    done. */
  lemma FreeIsClaimable(ts: Tasks, tree: nat, authors: seq<nat>, k: nat)
    requires Ordered(ts)
    ensures Refused(ts, tree, authors, k) == None <==> k < |ts| && Claimable(ts, tree, authors, k)
  {
    if k < |ts| {
      forall d: nat | d in ts[k].after
        ensures ts[d].status == Done <==> d !in Unmet(ts, k)
      {
      }
    }
  }

  /** The refusals, the first that applies: no such task in the tree, not open, by none of the authors, waiting; with
    who has it, who wrote it, what it waits for. */
  lemma RefusalIs(ts: Tasks, tree: nat, authors: seq<nat>, k: nat)
    ensures var why := Refused(ts, tree, authors, k);
      && (why == Some(NotFound) <==> k >= |ts| || ts[k].tree != tree)
      && (k < |ts| && ts[k].tree == tree ==>
            var undone := set d | d in ts[k].after && d < |ts| && ts[d].status != Done;
            if ts[k].status != Open then why == Some(NotOpen(ts[k].status, ts[k].claimedBy))
            else if ts[k].author !in authors then why == Some(NotYours(ts[k].author))
            else if undone != {} then why == Some(Blocked(undone))
            else why == None)
  {
    if k < |ts| {
      assert Unmet(ts, k) == set d | d in ts[k].after && d < |ts| && ts[d].status != Done;
    }
  }

  /** A claim without a number is one of the least that isn't refused. */
  lemma ClaimsFirst(ts: Tasks, tree: nat, claimer: nat, authors: seq<nat>, k: nat)
    requires k <= |ts| && (k < |ts| ==> Refused(ts, tree, authors, k) == None)
    requires forall j: nat :: j < k ==> Refused(ts, tree, authors, j).Some?
    ensures ClaimTask(ts, tree, claimer, authors, None) ==
      if k < |ts| then ClaimTask(ts, tree, claimer, authors, Some(k)) else ts
  {
    hide Refused;
    var first := FirstFree(ts, tree, authors, 0);
    assert first < |ts| ==> Refused(ts, tree, authors, first) == None;
    assert first == k;
  }

  /** A task is claimed only when nothing it waits for is undone. */
  lemma ClaimMeets(ts: Tasks, tree: nat, claimer: nat, authors: seq<nat>, id: Option<nat>)
    requires Ordered(ts)
    ensures var later := ClaimTask(ts, tree, claimer, authors, id);
      later == ts || exists k: nat :: k < |ts| && later == Hold(ts, k, claimer) && Claimable(ts, tree, authors, k)
  {
    var k := match id case Some(x) => x case None => FirstFree(ts, tree, authors, 0);
    if ClaimTask(ts, tree, claimer, authors, id) != ts {
      FreeIsClaimable(ts, tree, authors, k);
    }
  }

  lemma HoldKeeps(ts: Tasks, tree: nat, claimer: nat, authors: seq<nat>, k: nat)
    requires Ordered(ts) && Met(ts) && Named(ts) && k < |ts| && Claimable(ts, tree, authors, k)
    ensures var later := Hold(ts, k, claimer); Ordered(later) && Met(later) && Named(later) && Grows(ts, later)
  {
  }

  lemma StepKeeps(ts: Tasks, op: Op)
    requires Ordered(ts) && Met(ts) && Named(ts)
    ensures var later := Do(ts, op); Ordered(later) && Met(later) && Named(later) && Grows(ts, later)
  {
    match op {
      case AddOp(tree, author, after) =>
        AddKeeps(ts, tree, author, after);
      case ClaimOp(tree, claimer, authors, id) =>
        ClaimMeets(ts, tree, claimer, authors, id);
        hide ClaimTask, Hold, Refused, Ordered, Met, Named, Grows;
        var later := ClaimTask(ts, tree, claimer, authors, id);
        if later != ts {
          var k: nat :| k < |ts| && later == Hold(ts, k, claimer) && Claimable(ts, tree, authors, k);
          HoldKeeps(ts, tree, claimer, authors, k);
        } else {
          GrowsSelf(ts);
        }
      case FinishOp(id, claimer, failed) =>
      case ReleaseOp(agent) =>
    }
  }

  lemma GrowsSelf(ts: Tasks)
    ensures Grows(ts, ts)
  {
  }

  lemma AddKeeps(ts: Tasks, tree: nat, author: nat, after: seq<nat>)
    requires Ordered(ts) && Met(ts) && Named(ts)
    ensures var later := Add(ts, tree, author, after); Ordered(later) && Met(later) && Named(later) && Grows(ts, later)
  {
    if AllIn(ts, tree, after) {
      var later := Add(ts, tree, author, after);
      forall i: nat, d: nat | i < |later| && d in later[i].after
        ensures d < i && later[d].tree == later[i].tree
      {
        if i == |ts| {
          var k :| 0 <= k < |after| && after[k] == d;
        }
      }
    }
  }

  lemma {:induction false} RunKeeps(ts: Tasks, ops: seq<Op>)
    requires Ordered(ts) && Met(ts) && Named(ts)
    ensures var later := DoAll(ts, ops); Ordered(later) && Met(later) && Named(later) && Grows(ts, later)
    decreases |ops|
  {
    if ops == [] {
      GrowsSelf(ts);
    } else {
      StepKeeps(ts, ops[0]);
      RunKeeps(Do(ts, ops[0]), ops[1..]);
      hide Do, Ordered, Met, Named;
    }
  }

  // ---------------------------------------------------------------- what follows

  /** `i` waits for `d`, directly or not. */
  ghost predicate Waits(ts: Tasks, i: nat, d: nat)
    requires i < |ts|
  {
    exists e: nat :: e in ts[i].after && e < i && (e == d || Waits(ts, e, d))
  }

  lemma {:induction false} WaitsForOlder(ts: Tasks, i: nat, d: nat)
    requires Ordered(ts) && i < |ts| && Waits(ts, i, d)
    ensures d < i
  {
    var e: nat :| e in ts[i].after && e < i && (e == d || Waits(ts, e, d));
    if e != d {
      WaitsForOlder(ts, e, d);
    }
  }

  lemma {:induction false} WholeClosureDone(ts: Tasks, i: nat, d: nat)
    requires Ordered(ts) && Met(ts) && i < |ts| && ts[i].status != Open && Waits(ts, i, d)
    ensures d < |ts| && ts[d].status == Done
  {
    WaitsForOlder(ts, i, d);
    var e: nat :| e in ts[i].after && e < i && (e == d || Waits(ts, e, d));
    if e != d {
      WholeClosureDone(ts, e, d);
    }
  }

  lemma {:induction false} WaitsStays(ts: Tasks, later: Tasks, i: nat, d: nat)
    requires Ordered(ts) && Ordered(later) && Grows(ts, later) && i < |ts| && Waits(ts, i, d)
    ensures Waits(later, i, d)
  {
    var e: nat :| e in ts[i].after && e < i && (e == d || Waits(ts, e, d));
    assert e in later[i].after;
    if e != d {
      WaitsStays(ts, later, e, d);
    }
  }

  lemma AlwaysOrdered(ops: seq<Op>)
    ensures Ordered(DoAll([], ops)) && Met(DoAll([], ops)) && Named(DoAll([], ops))
  {
    RunKeeps([], ops);
  }

  /** In every reachable list: dependencies are older tasks, so none waits for itself, and a task that was ever
    taken and not put back has its whole transitive closure done. */
  lemma ReachableLists(ops: seq<Op>, i: nat, d: nat)
    requires i < |DoAll([], ops)| && Waits(DoAll([], ops), i, d)
    ensures var ts := DoAll([], ops);
      d < i && ts[d].tree == ts[i].tree && (ts[i].status != Open ==> ts[d].status == Done)
  {
    AlwaysOrdered(ops);
    var ts := DoAll([], ops);
    WaitsForOlder(ts, i, d);
    WaitsInTree(ts, i, d);
    if ts[i].status != Open {
      WholeClosureDone(ts, i, d);
    }
  }

  lemma {:induction false} WaitsInTree(ts: Tasks, i: nat, d: nat)
    requires Ordered(ts) && i < |ts| && Waits(ts, i, d)
    ensures d < |ts| && ts[d].tree == ts[i].tree
  {
    var e: nat :| e in ts[i].after && e < i && (e == d || Waits(ts, e, d));
    if e != d {
      WaitsInTree(ts, e, d);
    }
  }

  /** Once a task failed, whatever waits for it, directly or not, is open and stays open. */
  lemma BlockedForever(ops: seq<Op>, more: seq<Op>, i: nat, d: nat)
    requires i < |DoAll([], ops)| && Waits(DoAll([], ops), i, d)
    requires d < |DoAll([], ops)| && DoAll([], ops)[d].status == Failed
    ensures i < |DoAll(DoAll([], ops), more)| && DoAll(DoAll([], ops), more)[i].status == Open
  {
    AlwaysOrdered(ops);
    var ts := DoAll([], ops);
    RunKeeps(ts, more);
    var later := DoAll(ts, more);
    WaitsStays(ts, later, i, d);
    if later[i].status != Open {
      WholeClosureDone(later, i, d);
    }
  }

  lemma {:induction false} DoAllSnoc(ts: Tasks, ops: seq<Op>, op: Op)
    ensures DoAll(ts, ops + [op]) == Do(DoAll(ts, ops), op)
    decreases |ops|
  {
    if ops == [] {
      assert [op][1..] == [];
    } else {
      assert (ops + [op])[1..] == ops[1..] + [op];
      DoAllSnoc(Do(ts, ops[0]), ops[1..], op);
    }
  }

  /** Finished without failing, a task frees what waited for it last: whoever has the author in its line can claim it,
    and holds it then. */
  lemma DoneFrees(ts: Tasks, id: nat, holder: nat, i: nat, claimer: nat, authors: seq<nat>)
    requires Ordered(ts) && id < |ts| && ts[id].status == Claimed && ts[id].claimedBy == Some(holder)
    requires i < |ts| && ts[i].status == Open && id in ts[i].after && ts[i].author in authors
    requires forall d :: d in ts[i].after && d != id ==> ts[d].status == Done
    ensures Refused(ts, ts[i].tree, authors, i) == Some(Blocked({id}))
    ensures var later := Do(ts, FinishOp(id, holder, false));
      && later == ts[id := ts[id].(status := Done)]
      && Refused(later, ts[i].tree, authors, i) == None
      && Do(later, ClaimOp(ts[i].tree, claimer, authors, Some(i))) ==
           later[i := later[i].(status := Claimed, claimedBy := Some(claimer))]
  {
    RefusalIs(ts, ts[i].tree, authors, i);
    assert Unmet(ts, i) == {id};
    var later := Do(ts, FinishOp(id, holder, false));
    assert Unmet(later, i) == {};
  }

  /** Finished as failed, it leaves whatever waits for it, directly or not, open for good. */
  lemma FailedBlocks(ops: seq<Op>, id: nat, holder: nat, more: seq<Op>, i: nat)
    requires var ts := DoAll([], ops);
      && id < |ts| && ts[id].status == Claimed && ts[id].claimedBy == Some(holder) && i < |ts| && Waits(ts, i, id)
    ensures var later := DoAll(Do(DoAll([], ops), FinishOp(id, holder, true)), more);
      id < |later| && later[id].status == Failed && i < |later| && later[i].status == Open
  {
    var ts := DoAll([], ops);
    var failed := Do(ts, FinishOp(id, holder, true));
    assert failed == ts[id := ts[id].(status := Failed)];
    DoAllSnoc([], ops, FinishOp(id, holder, true));
    AlwaysOrdered(ops);
    AlwaysOrdered(ops + [FinishOp(id, holder, true)]);
    assert Grows(ts, failed);
    WaitsStays(ts, failed, i, id);
    BlockedForever(ops + [FinishOp(id, holder, true)], more, i, id);
    RunKeeps(failed, more);
    hide Do, Waits, Ordered, Met, Named;
  }

  /** A held task stays held by the same agent until that agent finishes it or its claims are released. */
  lemma HeldIsHeld(ts: Tasks, op: Op, id: nat, holder: nat)
    requires Holds(ts, holder, id)
    requires !(op.FinishOp? && op.claimer == holder && op.task == id) && !(op.ReleaseOp? && op.agent == holder)
    ensures Holds(Do(ts, op), holder, id)
  {
  }

  /** With nothing of a tree claimed or failed, its oldest open task can be claimed by its author's line. */
  lemma {:induction false} OldestOpenIsFree(ts: Tasks, tree: nat, i: nat)
    requires Ordered(ts) && i < |ts| && ts[i].tree == tree && ts[i].status == Open
    requires forall k :: 0 <= k < |ts| && ts[k].tree == tree ==> ts[k].status in {Open, Done}
    ensures exists k: nat :: k <= i && Claimable(ts, tree, [ts[k].author], k)
  {
    if j: nat :| j < i && ts[j].tree == tree && ts[j].status == Open {
      OldestOpenIsFree(ts, tree, j);
    } else {
      forall d: nat | d in ts[i].after
        ensures ts[d].status == Done
      {
        assert d < i && ts[d].tree == tree;
      }
      assert Claimable(ts, tree, [ts[i].author], i);
    }
  }

  /** So such a tree is never stuck: if every author is in the line, a claim without a number succeeds. */
  lemma NeverStuck(ops: seq<Op>, tree: nat, authors: seq<nat>)
    requires var ts := DoAll([], ops);
      && (exists i :: 0 <= i < |ts| && ts[i].tree == tree && ts[i].status == Open)
      && (forall k :: 0 <= k < |ts| && ts[k].tree == tree ==> ts[k].status in {Open, Done})
      && (forall k :: 0 <= k < |ts| && ts[k].tree == tree ==> ts[k].author in authors)
    ensures var ts := DoAll([], ops); FirstFree(ts, tree, authors, 0) < |ts|
  {
    AlwaysOrdered(ops);
    var ts := DoAll([], ops);
    var i :| 0 <= i < |ts| && ts[i].tree == tree && ts[i].status == Open;
    OldestOpenIsFree(ts, tree, i);
    var k: nat :| k <= i && Claimable(ts, tree, [ts[k].author], k);
    FreeIsClaimable(ts, tree, authors, k);
  }
}
