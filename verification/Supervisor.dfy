/** The supervisor's store in place: rows in the order they were made, the operations on them, who is above an
  agent and who is closed with it. */
module Supervisor {
  import opened Agents
  import Board
  import opened Wrappers

  /** `x` is `id` or was started, directly or not, by it. */
  ghost predicate Under(rows: Rows, x: nat, id: nat)
    requires Forest(rows)
  {
    x in rows && id in LineageOf(rows, x)
  }

  lemma UnderStep(rows: Rows, x: nat, id: nat)
    requires Forest(rows) && x in rows
    ensures Under(rows, x, id) <==> x == id || (rows[x].parent.Some? && Under(rows, rows[x].parent.value, id))
  {
  }

  lemma {:induction false} UnderDepth(rows: Rows, x: nat, id: nat)
    requires Forest(rows) && Under(rows, x, id)
    ensures id in rows && (x != id ==> rows[id].depth < rows[x].depth)
    decreases if x in rows then rows[x].depth else 0
  {
    UnderStep(rows, x, id);
    if x != id {
      UnderDepth(rows, rows[x].parent.value, id);
    }
  }

  ghost predicate Distinct(s: seq<nat>) {
    forall i, j :: 0 <= i < j < |s| ==> s[i] != s[j]
  }

  function ChildrenOf(rows: Rows, order: seq<nat>, p: nat): (kids: seq<nat>)
    ensures forall x :: x in kids <==> x in order && x in rows && rows[x].parent == Some(p)
  {
    if order == [] then []
    else
      var last := order[|order| - 1];
      ChildrenOf(rows, order[..|order| - 1], p) + if last in rows && rows[last].parent == Some(p) then [last] else []
  }

  lemma {:induction false} ChildrenDistinct(rows: Rows, order: seq<nat>, p: nat)
    requires Distinct(order)
    ensures Distinct(ChildrenOf(rows, order, p))
  {
    if order != [] {
      ChildrenDistinct(rows, order[..|order| - 1], p);
    }
  }

  function Elems(s: seq<nat>): set<nat> {
    set x | x in s
  }

  /** Everyone found is under `id`, through someone visited. */
  ghost predicate FoundUnder(rows: Rows, id: nat, out: set<nat>, stack: set<nat>)
    requires Forest(rows)
  {
    forall x :: x in out + stack ==>
      Under(rows, x, id) && (x != id ==> rows[x].parent.Some? && rows[x].parent.value in out)
  }

  /** Whose parent was visited was found. */
  ghost predicate ChildrenFound(rows: Rows, out: set<nat>, stack: set<nat>) {
    forall x :: x in rows && rows[x].parent.Some? && rows[x].parent.value in out ==> x in out + stack
  }

  ghost predicate ParentsFirst(rows: Rows, id: nat, out: seq<nat>) {
    forall j :: 0 <= j < |out| && out[j] != id ==>
      out[j] in rows && rows[out[j]].parent.Some? && rows[out[j]].parent.value in out[..j]
  }

  ghost predicate Search(rows: Rows, id: nat, out: seq<nat>, stack: seq<nat>)
    requires Forest(rows)
  {
    && Distinct(out + stack)
    && id in Elems(out) + Elems(stack)
    && FoundUnder(rows, id, Elems(out), Elems(stack))
    && ChildrenFound(rows, Elems(out), Elems(stack))
    && ParentsFirst(rows, id, out)
  }

  lemma KidsAreNew(rows: Rows, id: nat, out: set<nat>, stack: set<nat>, next: nat, x: nat)
    requires Forest(rows) && FoundUnder(rows, id, out, stack) && next in stack && next !in out
    requires x in rows && rows[x].parent == Some(next)
    ensures x !in out + stack && x != id && Under(rows, x, id)
  {
    UnderStep(rows, x, id);
    UnderDepth(rows, next, id);
    hide Under, LineageOf;
    assert rows[x].depth == rows[next].depth + 1;
  }

  lemma VisitFinds(rows: Rows, id: nat, out: set<nat>, rest: set<nat>, next: nat, kids: set<nat>)
    requires Forest(rows) && FoundUnder(rows, id, out, rest + {next}) && ChildrenFound(rows, out, rest + {next})
    requires next !in out && forall x :: x in kids <==> x in rows && rows[x].parent == Some(next)
    ensures FoundUnder(rows, id, out + {next}, rest + kids) && ChildrenFound(rows, out + {next}, rest + kids)
  {
    hide Under, Forest;
    forall x | x in kids
      ensures x != id && Under(rows, x, id)
    {
      KidsAreNew(rows, id, out, rest + {next}, next, x);
    }
  }

  lemma VisitKeepsOrder(rows: Rows, id: nat, out: seq<nat>, next: nat)
    requires Forest(rows) && ParentsFirst(rows, id, out)
    requires next in rows && (next != id ==> rows[next].parent.Some? && rows[next].parent.value in out)
    ensures ParentsFirst(rows, id, out + [next])
  {
    var all := out + [next];
    forall j | 0 <= j < |all| && all[j] != id
      ensures all[j] in rows && rows[all[j]].parent.Some? && rows[all[j]].parent.value in all[..j]
    {
      assert all[..j] == if j < |out| then out[..j] else out;
    }
  }

  lemma ElemsOf(a: seq<nat>, b: seq<nat>)
    ensures Elems(a + b) == Elems(a) + Elems(b)
  {
  }

  lemma SearchVisits(rows: Rows, order: seq<nat>, id: nat, out: seq<nat>, rest: seq<nat>, next: nat)
    requires Forest(rows) && Distinct(order) && forall x :: x in rows ==> x in order
    requires Search(rows, id, out, rest + [next])
    ensures Search(rows, id, out + [next], rest + ChildrenOf(rows, order, next))
    ensures next in rows && next !in out
  {
    var kids := ChildrenOf(rows, order, next);
    ChildrenDistinct(rows, order, next);
    SplitDistinct(out, rest, next);
    ElemsOf(out, [next]);
    ElemsOf(rest, [next]);
    ElemsOf(rest, kids);
    assert Elems([next]) == {next};
    assert next in rows && (next != id ==> rows[next].parent.Some? && rows[next].parent.value in out) by {
      assert next in Elems(out) + Elems(rest + [next]);
    }
    VisitFinds(rows, id, Elems(out), Elems(rest), next, Elems(kids));
    VisitKeepsOrder(rows, id, out, next);
    forall x | x in kids
      ensures x !in out + (rest + [next])
    {
      KidsAreNew(rows, id, Elems(out), Elems(rest + [next]), next, x);
      ElemsOf(out, rest + [next]);
      assert x !in Elems(out + (rest + [next]));
    }
    JoinDistinct(out, rest, next, kids);
  }

  lemma SplitDistinct(out: seq<nat>, rest: seq<nat>, next: nat)
    requires Distinct(out + (rest + [next]))
    ensures next !in out && next !in rest
  {
    var all := out + (rest + [next]);
    forall i | 0 <= i < |out|
      ensures out[i] != next
    {
      assert all[i] != all[|all| - 1];
    }
    forall i | 0 <= i < |rest|
      ensures rest[i] != next
    {
      assert all[|out| + i] != all[|all| - 1];
    }
  }

  lemma JoinDistinct(out: seq<nat>, rest: seq<nat>, next: nat, kids: seq<nat>)
    requires Distinct(out + (rest + [next])) && Distinct(kids)
    requires forall x :: x in kids ==> x !in out + (rest + [next])
    ensures Distinct((out + [next]) + (rest + kids))
  {
    var all, all' := out + (rest + [next]), (out + [next]) + (rest + kids);
    var o, r := |out|, |rest|;
    forall i, j | 0 <= i < j < |all'|
      ensures all'[i] != all'[j]
    {
      var at := k => if k < o then k else if k == o then o + r else k - 1;
      if j <= o + r {
        assert all'[i] == all[at(i)] && all'[j] == all[at(j)];
      } else {
        assert all'[j] == kids[j - o - r - 1];
        if i <= o + r {
          assert all'[i] == all[at(i)] && all[at(i)] in all;
        } else {
          assert all'[i] == kids[i - o - r - 1];
        }
      }
    }
  }

  /** With nothing left to visit, exactly those under `id` were visited. */
  lemma {:induction false} SearchDone(rows: Rows, id: nat, out: seq<nat>, x: nat)
    requires Forest(rows) && Search(rows, id, out, []) && Under(rows, x, id)
    ensures x in out
    decreases if x in rows then rows[x].depth else 0
  {
    UnderStep(rows, x, id);
    hide Under, Distinct, ParentsFirst;
    if x != id {
      SearchDone(rows, id, out, rows[x].parent.value);
      assert x in Elems(out) + Elems([]);
    }
  }

  /** Parents first puts every ancestor first. */
  lemma {:induction false} AncestorsFirst(rows: Rows, id: nat, out: seq<nat>, i: nat, j: nat)
    requires Forest(rows) && Distinct(out) && ParentsFirst(rows, id, out)
    requires i < |out| && j < |out| && Under(rows, out[i], out[j]) && Under(rows, out[j], id)
    ensures j <= i
    decreases i
  {
    var x := out[i];
    UnderStep(rows, x, out[j]);
    UnderDepth(rows, x, out[j]);
    UnderDepth(rows, out[j], id);
    if i != j {
      assert x != id;
      var p := rows[x].parent.value;
      assert p in out[..i];
      var k :| 0 <= k < i && out[k] == p;
      AncestorsFirst(rows, id, out, k, j);
    }
  }

  lemma VisitShrinks(agents: set<nat>, out: seq<nat>, next: nat)
    requires next in agents && next !in out
    ensures agents - Elems(out + [next]) < agents - Elems(out)
  {
    ElemsOf(out, [next]);
    assert next in Elems([next]) && next in agents - Elems(out);
  }

  lemma SearchStarts(rows: Rows, id: nat)
    requires Forest(rows) && id in rows
    ensures Search(rows, id, [], [id])
  {
    assert [] + [id] == [id];
    assert Elems([id]) == {id};
    UnderStep(rows, id, id);
    hide Under;
  }

  lemma SearchFound(rows: Rows, id: nat, out: seq<nat>)
    requires Forest(rows) && Search(rows, id, out, [])
    ensures Distinct(out) && ParentsFirst(rows, id, out)
    ensures forall x :: x in out <==> Under(rows, x, id)
    ensures forall i, j :: 0 <= i < |out| && 0 <= j < |out| && Under(rows, out[i], out[j]) ==> j <= i
  {
    assert out + [] == out;
    assert forall x :: x in out ==> x in Elems(out) + Elems([]);
    hide Under, Distinct, ParentsFirst;
    forall x | Under(rows, x, id)
      ensures x in out
    {
      SearchDone(rows, id, out, x);
    }
    forall i, j | 0 <= i < |out| && 0 <= j < |out| && Under(rows, out[i], out[j])
      ensures j <= i
    {
      AncestorsFirst(rows, id, out, i, j);
    }
  }

  /** `rows` with everyone in `gone` closed. */
  function ClosedRows(rows: Rows, gone: set<nat>): Rows {
    map x | x in rows :: if x in gone then rows[x].(status := Closed) else rows[x]
  }

  lemma ClosedRowsKeepForest(rows: Rows, gone: set<nat>)
    requires Forest(rows)
    ensures Forest(ClosedRows(rows, gone)) && ClosedRows(rows, gone).Keys == rows.Keys
  {
  }

  lemma ClosedRowsSay(rows: Rows, out: seq<nat>)
    ensures var later := ClosedRows(rows, Elems(out));
      && (forall x :: x in later <==> x in rows)
      && (forall x :: x in later ==> later[x] == rows[x].(status := if x in out then Closed else rows[x].status))
  {
  }

  lemma CloseOneMore(rows: Rows, gone: set<nat>, x: nat)
    requires x in rows && x !in gone
    ensures ClosedRows(rows, gone)[x] == rows[x]
    ensures ClosedRows(rows, gone + {x}) ==
      if rows[x].status != Closed then SetStatus(ClosedRows(rows, gone), x, Closed) else ClosedRows(rows, gone)
  {
    assert rows[x].status == Closed ==> rows[x].(status := Closed) == rows[x];
  }

  function OpenOf(rows: Rows, ids: seq<nat>): (open: seq<nat>)
    ensures forall x :: x in open <==> x in ids && x in rows && rows[x].status != Closed
  {
    if ids == [] then []
    else
      var last := ids[|ids| - 1];
      OpenOf(rows, ids[..|ids| - 1]) + if last in rows && rows[last].status != Closed then [last] else []
  }

  lemma CloseNext(rows: Rows, out: seq<nat>, i: nat)
    requires i < |out| && Distinct(out) && out[i] in rows
    ensures ClosedRows(rows, Elems(out[..i])).Keys == rows.Keys
    ensures ClosedRows(rows, Elems(out[..i]))[out[i]] == rows[out[i]]
    ensures ClosedRows(rows, Elems(out[..i + 1])) ==
      if rows[out[i]].status != Closed then SetStatus(ClosedRows(rows, Elems(out[..i])), out[i], Closed)
      else ClosedRows(rows, Elems(out[..i]))
    ensures OpenOf(rows, out[..i + 1]) ==
      OpenOf(rows, out[..i]) + if rows[out[i]].status != Closed then [out[i]] else []
  {
    assert out[..i + 1] == out[..i] + [out[i]] && out[..i + 1][..i] == out[..i];
    ElemsOf(out[..i], [out[i]]);
    assert Elems([out[i]]) == {out[i]};
    CloseOneMore(rows, Elems(out[..i]), out[i]);
  }

  lemma CloseNone(rows: Rows, out: seq<nat>)
    ensures ClosedRows(rows, Elems(out[..0])) == rows && OpenOf(rows, out[..0]) == []
  {
  }

  /** Leaving out the closed ones keeps the rest in order. */
  lemma {:induction false} OpenOfKeepsOrder(rows: Rows, id: nat, out: seq<nat>)
    requires Forest(rows) && Distinct(out) && forall i, j :: 0 <= i < |out| && 0 <= j < |out| && Under(rows, out[i], out[j]) ==> j <= i
    ensures Distinct(OpenOf(rows, out))
    ensures var s := OpenOf(rows, out);
      forall i, j :: 0 <= i < |s| && 0 <= j < |s| && Under(rows, s[i], s[j]) ==> j <= i
  {
    if out != [] {
      var init, s := out[..|out| - 1], OpenOf(rows, out);
      hide Under, Forest;
      OpenOfKeepsOrder(rows, id, init);
      var t := OpenOf(rows, init);
      forall i, j | 0 <= i < |s| && 0 <= j < |s| && Under(rows, s[i], s[j])
        ensures j <= i
      {
      }
    }
  }

  /** Parent links form a forest, and each row has its place in the order the rows were made. */
  ghost predicate Table(rows: Rows, order: seq<nat>) {
    Forest(rows) && Distinct(order) && Elems(order) == rows.Keys
  }

  lemma TableIsForest(rows: Rows, order: seq<nat>)
    requires Table(rows, order)
    ensures Forest(rows)
  {
  }

  lemma TableVisits(rows: Rows, order: seq<nat>, id: nat, out: seq<nat>, rest: seq<nat>, next: nat)
    requires Forest(rows) && Table(rows, order) && Search(rows, id, out, rest + [next])
    ensures Search(rows, id, out + [next], rest + ChildrenOf(rows, order, next)) && next in rows && next !in out
  {
    hide Search, Forest, Distinct;
    assert forall x :: x in rows ==> x in Elems(order);
    SearchVisits(rows, order, id, out, rest, next);
  }

  lemma SplitLast(s: seq<nat>)
    requires s != []
    ensures s == s[..|s| - 1] + [s[|s| - 1]]
  {
  }

  lemma AddKeepsForest(rows: Rows, id: nat, row: Row)
    requires Forest(rows) && id !in rows
    requires match row.parent
      case None => row.depth == 0 && row.tree == id
      case Some(p) => p in rows && row.depth == rows[p].depth + 1 && row.tree == rows[p].tree
    ensures Forest(rows[id := row])
  {
    var later := rows[id := row];
    assert OneRow(rows, later, id) by {
      hide Forest;
      assert rows.Keys <= later.Keys;
    }
    hide OneRow;
    OneRowKeepsForest(rows, later, id);
  }

  lemma AddKeepsTable(rows: Rows, order: seq<nat>, id: nat, row: Row)
    requires Table(rows, order) && id !in rows
    requires match row.parent
      case None => row.depth == 0 && row.tree == id
      case Some(p) => p in rows && row.depth == rows[p].depth + 1 && row.tree == rows[p].tree
    ensures Table(rows[id := row], order + [id])
  {
    AddKeepsForest(rows, id, row);
    hide Forest;
    ElemsOf(order, [id]);
    assert Elems([id]) == {id};
    assert id !in Elems(order);
    assert rows[id := row].Keys == rows.Keys + {id};
    assert forall i :: 0 <= i < |order| ==> order[i] in Elems(order);
  }

  lemma ClosedRowsKeepTable(rows: Rows, order: seq<nat>, gone: set<nat>)
    requires Table(rows, order)
    ensures Table(ClosedRows(rows, gone), order)
  {
    ClosedRowsKeepForest(rows, gone);
  }

  lemma StatusKeepsTable(rows: Rows, order: seq<nat>, id: nat, status: Status)
    requires Table(rows, order)
    ensures Table(SetStatus(rows, id, status), order)
  {
    if id in rows {
      OneRowKeepsForest(rows, SetStatus(rows, id, status), id);
    }
  }

  lemma LineageUnfolds(rows: Rows, at: nat)
    requires Forest(rows) && at in rows
    ensures match rows[at].parent
      case None => LineageOf(rows, at) == [at]
      case Some(p) => p in rows && rows[p].depth < rows[at].depth && LineageOf(rows, at) == [at] + LineageOf(rows, p)
  {
  }

  lemma Regroup(line: seq<nat>, at: nat, above: seq<nat>)
    requires above != []
    ensures line + ([at] + above)[1..] == line + [above[0]] + above[1..]
  {
    assert ([at] + above)[1..] == above;
    assert line + [above[0]] + above[1..] == line + ([above[0]] + above[1..]);
  }

  lemma LineageStep(rows: Rows, line: seq<nat>, at: nat, caller: nat)
    requires Forest(rows) && at in rows && caller in rows && rows[at].parent.Some?
    requires line + LineageOf(rows, at)[1..] == LineageOf(rows, caller)
    ensures var p := rows[at].parent.value;
      p in rows && rows[p].depth < rows[at].depth && line + [p] + LineageOf(rows, p)[1..] == LineageOf(rows, caller)
  {
    LineageUnfolds(rows, at);
    hide LineageOf, Forest;
    var p := rows[at].parent.value;
    Regroup(line, at, LineageOf(rows, p));
  }

  // ---------------------------------------------------------------- the claims of the closed

  function ReleaseEach(ts: Board.Tasks, agents: seq<nat>): Board.Tasks {
    if agents == [] then ts else Board.Release(ReleaseEach(ts, agents[..|agents| - 1]), agents[|agents| - 1])
  }

  /** The claimed tasks of `agents` are open again, all others as they were. */
  ghost predicate Released(ts: Board.Tasks, later: Board.Tasks, agents: seq<nat>) {
    && |later| == |ts|
    && forall i :: 0 <= i < |ts| ==>
         later[i] == if ts[i].status == Board.Claimed && ts[i].claimedBy.Some? && ts[i].claimedBy.value in agents
                     then ts[i].(status := Board.Open, claimedBy := None) else ts[i]
  }

  lemma ReleaseNone(ts: Board.Tasks)
    ensures ReleaseEach(ts, []) == ts
  {
  }

  lemma ReleaseNext(ts: Board.Tasks, agents: seq<nat>, agent: nat)
    ensures ReleaseEach(ts, agents + [agent]) == Board.Release(ReleaseEach(ts, agents), agent)
  {
    assert (agents + [agent])[..|agents|] == agents;
  }

  lemma {:induction false} ReleaseEachSays(ts: Board.Tasks, agents: seq<nat>)
    ensures Released(ts, ReleaseEach(ts, agents), agents)
  {
    if agents != [] {
      var rest, last := agents[..|agents| - 1], agents[|agents| - 1];
      ReleaseEachSays(ts, rest);
      hide ReleaseEach;
      assert agents == rest + [last];
      ReleaseNext(ts, rest, last);
    }
  }

  class Store {
    const limits: Limits
    var rows: Rows
    var order: seq<nat>
    var tasks: Board.Tasks

    ghost predicate Valid()
      reads this
    {
      Table(rows, order)
    }

    constructor (limits: Limits)
      ensures Valid() && rows == map[] && tasks == [] && this.limits == limits
    {
      this.limits := limits;
      rows, order, tasks := map[], [], [];
    }

    method AddRoot(id: nat)
      requires Valid()
      modifies this`rows, this`order
      ensures Valid() && rows == InsertRoot(old(rows), id)
      ensures rows == if id in old(rows) then old(rows) else old(rows)[id := Row(id, None, 0, Idle)]
    {
      hide Table;
      if id !in rows {
        AddKeepsTable(rows, order, id, Row(id, None, 0, Idle));
        rows := rows[id := Row(id, None, 0, Idle)];
        order := order + [id];
      }
    }

    method Spawn(caller: nat, id: nat, budget: bool) returns (refused: Option<Refusal>)
      requires Valid()
      modifies this`rows, this`order
      ensures Valid()
      ensures match Agents.Spawn(limits, old(rows), caller, id, budget)
        case Success(r) => refused == None && rows == r
        case Failure(why) => refused == Some(why) && rows == old(rows)
      ensures refused == None <==>
        && caller in old(rows) && old(rows)[caller].depth + 1 <= limits.maxDepth
        && |set x | x in old(rows) && old(rows)[x].parent == Some(caller) && old(rows)[x].status == Running| < limits.maxChildren
        && budget
        && |set x | x in old(rows) && old(rows)[x].tree == old(rows)[caller].tree && old(rows)[x].parent.Some?
              && old(rows)[x].status != Closed| < limits.maxAgents
        && id !in old(rows)
      ensures refused == None ==>
        rows == old(rows)[id := Row(old(rows)[caller].tree, Some(caller), old(rows)[caller].depth + 1, Running)]
    {
      hide Table, CheckCanRun, OpenInTree;
      SpawnIff(limits, rows, caller, id, budget);
      if caller !in rows {
        return Some(NoSuchAgent);
      }
      var parent := rows[caller];
      if parent.depth + 1 > limits.maxDepth {
        return Some(TooDeep);
      }
      var why := CheckCanRun(limits, rows, caller, budget);
      if why.Some? {
        return why;
      }
      if OpenInTree(rows, parent.tree) >= limits.maxAgents {
        return Some(TooManyOpen);
      }
      if id in rows {
        return Some(IdTaken);
      }
      var child := Row(parent.tree, Some(caller), parent.depth + 1, Running);
      AddKeepsTable(rows, order, id, child);
      rows := rows[id := child];
      order := order + [id];
      return None;
    }

    /** The part of a resume under the lock, acting on the status `seen` before. */
    method Resume(caller: nat, id: nat, seen: Status, budget: bool) returns (refused: Option<Refusal>)
      requires Valid()
      modifies this`rows
      ensures Valid()
      ensures match ResumeWrite(limits, old(rows), caller, id, seen, budget)
        case Success(r) => refused == None && rows == r
        case Failure(why) => refused == Some(why) && rows == old(rows)
      ensures refused == None <==>
        && seen != Running && seen != Closed && caller in old(rows) && budget
        && |set x | x in old(rows) && old(rows)[x].parent == Some(caller) && old(rows)[x].status == Running| < limits.maxChildren
      ensures refused == None && id in old(rows) ==> rows == old(rows)[id := old(rows)[id].(status := Running)]
    {
      hide Table, CheckCanRun;
      ResumeIff(limits, rows, caller, id, seen, budget);
      if seen == Running {
        return Some(StillRunning);
      }
      if seen == Closed {
        return Some(WasClosed);
      }
      if caller !in rows {
        return Some(NoSuchAgent);
      }
      var why := CheckCanRun(limits, rows, caller, budget);
      if why.Some? {
        return why;
      }
      StatusKeepsTable(rows, order, id, Running);
      rows := SetStatus(rows, id, Running);
      return None;
    }

    method FinishRun(id: nat, failed: bool) returns (recorded: bool)
      requires Valid()
      modifies this`rows
      ensures Valid() && rows == Agents.Finish(old(rows), id, failed)
      ensures recorded == (id in old(rows) && old(rows)[id].status != Closed)
      ensures recorded ==> rows == old(rows)[id := old(rows)[id].(status := if failed then Failed else Idle)]
      ensures !recorded ==> rows == old(rows)
    {
      hide Table;
      recorded := id in rows && rows[id].status != Closed;
      if recorded {
        StatusKeepsTable(rows, order, id, if failed then Failed else Idle);
        rows := rows[id := rows[id].(status := if failed then Failed else Idle)];
      }
    }

    method Children(p: nat) returns (kids: seq<nat>)
      requires Valid()
      ensures kids == ChildrenOf(rows, order, p)
    {
      hide Table;
      kids := [];
      var i := 0;
      while i < |order|
        invariant 0 <= i <= |order|
        invariant kids == ChildrenOf(rows, order[..i], p)
      {
        assert order[..i + 1][..i] == order[..i];
        if order[i] in rows && rows[order[i]].parent == Some(p) {
          kids := kids + [order[i]];
        }
        i := i + 1;
      }
      assert order[..i] == order;
    }

    /** The agent and everyone above it: as many as its depth, and one. */
    method Lineage(caller: nat) returns (r: Result<seq<nat>, Refusal>)
      requires Valid()
      ensures r == if caller in rows then Success(LineageOf(rows, caller)) else Failure(NoSuchAgent)
    {
      hide LineageOf, Forest, Distinct;
      if caller !in rows {
        return Failure(NoSuchAgent);
      }
      var line := [caller];
      var at := caller;
      assert line + LineageOf(rows, at)[1..] == LineageOf(rows, caller);
      while rows[at].parent.Some?
        invariant at in rows && line + LineageOf(rows, at)[1..] == LineageOf(rows, caller)
        decreases rows[at].depth
      {
        LineageStep(rows, line, at, caller);
        at := rows[at].parent.value;
        line := line + [at];
      }
      LineageUnfolds(rows, at);
      assert line + LineageOf(rows, at)[1..] == line;
      return Success(line);
    }

    /** The order in which `CloseTree` closes: the agent and everyone under it, each once, ancestors first. */
    method CloseOrder(id: nat) returns (out: seq<nat>)
      requires Valid() && id in rows
      ensures Distinct(out) && ParentsFirst(rows, id, out) && forall x :: x in out <==> Under(rows, x, id)
      ensures forall i, j :: 0 <= i < |out| && 0 <= j < |out| && Under(rows, out[i], out[j]) ==> j <= i
    {
      hide Table, Forest, Distinct, ParentsFirst, FoundUnder, ChildrenFound, Search, LineageOf, Under;
      TableIsForest(rows, order);
      out := [];
      var stack := [id];
      SearchStarts(rows, id);
      while stack != []
        invariant Search(rows, id, out, stack)
        decreases rows.Keys - Elems(out)
      {
        hide Elems;
        var next, rest := stack[|stack| - 1], stack[..|stack| - 1];
        SplitLast(stack);
        var kids := Children(next);
        TableVisits(rows, order, id, out, rest, next);
        VisitShrinks(rows.Keys, out, next);
        stack := rest + kids;
        out := out + [next];
      }
      SearchFound(rows, id, out);
    }

    /** The closing loop. */
    method CloseEach(out: seq<nat>) returns (closed: seq<nat>)
      requires Valid() && Distinct(out) && forall x :: x in out ==> x in rows
      modifies this`rows, this`tasks
      ensures Valid() && rows == ClosedRows(old(rows), Elems(out)) && closed == OpenOf(old(rows), out)
      ensures tasks == ReleaseEach(old(tasks), closed)
    {
      hide Table, Distinct, SetStatus, ClosedRows, OpenOf, Elems, ReleaseEach;
      ghost var was := rows;
      ReleaseNone(tasks);
      closed := [];
      var i := 0;
      CloseNone(was, out);
      while i < |out|
        invariant 0 <= i <= |out|
        invariant rows == ClosedRows(was, Elems(out[..i]))
        invariant closed == OpenOf(was, out[..i]) && tasks == ReleaseEach(old(tasks), closed)
      {
        var agent := out[i];
        assert agent in out;
        CloseNext(was, out, i);
        if rows[agent].status != Closed {
          rows := SetStatus(rows, agent, Closed);
          ReleaseNext(old(tasks), closed, agent);
          tasks := Board.Release(tasks, agent);
          closed := closed + [agent];
        }
        i := i + 1;
      }
      assert out[..i] == out;
      ClosedRowsKeepTable(was, order, Elems(out));
    }

    /** Closes an agent and everyone under it; those that weren't closed yet are returned, ancestors first, and the
      tasks they held are open again. */
    method CloseTree(id: nat) returns (r: Result<seq<nat>, Refusal>)
      requires Valid()
      modifies this`rows, this`tasks
      ensures Valid()
      ensures id !in old(rows) ==> r == Failure(NoSuchAgent) && rows == old(rows) && tasks == old(tasks)
      ensures id in old(rows) ==>
        && (forall x :: x in rows <==> x in old(rows))
        && (forall x :: x in rows ==>
              rows[x] == old(rows)[x].(status := if Under(old(rows), x, id) then Closed else old(rows)[x].status))
        && r.Success? && Distinct(r.value)
        && (forall x :: x in r.value <==> Under(old(rows), x, id) && old(rows)[x].status != Closed)
        && forall i, j :: 0 <= i < |r.value| && 0 <= j < |r.value| && Under(old(rows), r.value[i], r.value[j]) ==> j <= i
      ensures id in old(rows) ==> r.Success? && Released(old(tasks), tasks, r.value)
    {
      if id !in rows {
        return Failure(NoSuchAgent);
      }
      hide Under, Forest, ParentsFirst, Distinct, Table, OpenOf, ClosedRows, ReleaseEach, Released;
      ghost var was := rows;
      var out := CloseOrder(id);
      var closed := CloseEach(out);
      OpenOfKeepsOrder(was, id, out);
      ClosedRowsSay(was, out);
      ReleaseEachSays(old(tasks), closed);
      return Success(closed);
    }
  }
}
