/** Who may claim what: the task list as agents use it, over the agents table, and the board's pages. */
module Shared {
  import opened Wrappers
  import Agents
  import Board

  // ---------------------------------------------------------------- tasks and lines of agents

  datatype State = State(agents: Agents.State, tasks: Board.Tasks)

  datatype Act =
    | AgentAct(act: Agents.Act)
    | TaskAdd(caller: nat, after: seq<nat>)
    | TaskClaim(caller: nat, id: Option<nat>)
    | TaskDone(caller: nat, task: nat, failed: bool)
    | Released(agent: nat)

  ghost predicate Valid(s: State) {
    Agents.Forest(s.agents.rows) && Agents.PendingMatch(s.agents)
  }

  /** A caller with no row is refused before it reaches the list. */
  ghost function Next(l: Agents.Limits, s: State, act: Act): State
    requires Valid(s)
  {
    match act
    case AgentAct(a) => s.(agents := Agents.Next(l, s.agents, a))
    case TaskAdd(caller, after) =>
      if caller !in s.agents.rows then s
      else s.(tasks := Board.Add(s.tasks, s.agents.rows[caller].tree, caller, after))
    case TaskClaim(caller, id) =>
      if caller !in s.agents.rows then s
      else s.(tasks := Board.ClaimTask(s.tasks, s.agents.rows[caller].tree, caller, Agents.LineageOf(s.agents.rows, caller), id))
    case TaskDone(caller, id, failed) => s.(tasks := Board.Finish(s.tasks, id, caller, failed))
    case Released(agent) => s.(tasks := Board.Release(s.tasks, agent))
  }

  /** An agent with a row claims a task of its tree exactly when the task is open, was written by the agent or by one it
    was started under, and waits for nothing undone; without a row it can claim and add nothing. */
  lemma AgentClaims(l: Agents.Limits, s: State, caller: nat, k: nat, after: seq<nat>)
    requires Valid(s) && Board.Ordered(s.tasks)
    ensures caller !in s.agents.rows ==>
      Next(l, s, TaskClaim(caller, Some(k))) == Next(l, s, TaskClaim(caller, None)) == Next(l, s, TaskAdd(caller, after)) == s
    ensures caller in s.agents.rows ==>
      var ts, t := s.tasks, Next(l, s, TaskClaim(caller, Some(k)));
      && t.agents == s.agents
      && t.tasks ==
           if && k < |ts| && ts[k].tree == s.agents.rows[caller].tree && ts[k].status == Board.Open
              && ts[k].author in Agents.LineageOf(s.agents.rows, caller)
              && forall d: nat :: d in ts[k].after ==> ts[d].status == Board.Done
           then ts[k := ts[k].(status := Board.Claimed, claimedBy := Some(caller))] else ts
  {
    if caller in s.agents.rows {
      Board.FreeIsClaimable(s.tasks, s.agents.rows[caller].tree, Agents.LineageOf(s.agents.rows, caller), k);
      hide Board.Refused;
    }
  }

  /** Claiming without a number takes the least such task, if there is one. */
  lemma AgentClaimsAny(l: Agents.Limits, s: State, caller: nat, line: seq<nat>, k: nat)
    requires Valid(s) && caller in s.agents.rows && line == Agents.LineageOf(s.agents.rows, caller) && k <= |s.tasks|
    requires var tree := s.agents.rows[caller].tree;
      && (k < |s.tasks| ==> Board.Refused(s.tasks, tree, line, k) == None)
      && forall j: nat :: j < k ==> Board.Refused(s.tasks, tree, line, j).Some?
    ensures Next(l, s, TaskClaim(caller, None)) == if k < |s.tasks| then Next(l, s, TaskClaim(caller, Some(k))) else s
  {
    Board.ClaimsFirst(s.tasks, s.agents.rows[caller].tree, caller, line, k);
    hide Board.Refused, Board.ClaimTask, Agents.Forest, Agents.PendingMatch;
  }

  /** The holder finishes its task, an agent's claims are released, and what agents do to each other leaves the tasks
    alone. */
  lemma OtherActs(l: Agents.Limits, s: State, act: Agents.Act, caller: nat, k: nat, failed: bool)
    requires Valid(s)
    ensures Next(l, s, AgentAct(act)) == State(Agents.Next(l, s.agents, act), s.tasks)
    ensures var ts, t := s.tasks, Next(l, s, TaskDone(caller, k, failed));
      && t.agents == s.agents
      && t.tasks ==
           if k < |ts| && ts[k].status == Board.Claimed && ts[k].claimedBy == Some(caller)
           then ts[k := ts[k].(status := if failed then Board.Failed else Board.Done)] else ts
    ensures var ts, t := s.tasks, Next(l, s, Released(caller));
      && t.agents == s.agents && |t.tasks| == |ts|
      && forall i :: 0 <= i < |ts| ==>
           t.tasks[i] ==
             if ts[i].status == Board.Claimed && ts[i].claimedBy == Some(caller)
             then ts[i].(status := Board.Open, claimedBy := None) else ts[i]
  {
    hide Agents.Next, Agents.LineageOf;
  }

  lemma AgentAdds(l: Agents.Limits, s: State, caller: nat, after: seq<nat>)
    requires Valid(s) && caller in s.agents.rows
    ensures var tree, ts := s.agents.rows[caller].tree, s.tasks;
      Next(l, s, TaskAdd(caller, after)) ==
        if forall d :: d in after ==> d < |ts| && ts[d].tree == tree
        then s.(tasks := ts + [Board.Task(tree, caller, (set d | d in after), Board.Open, None)]) else s
  {
    assert forall k :: 0 <= k < |after| ==> after[k] in after;
  }

  /** The task's author is an agent of its tree, and whoever has it is the author or below it. */
  ghost predicate InLine(rows: Agents.Rows, t: Board.Task)
    requires Agents.Forest(rows)
  {
    && t.author in rows && rows[t.author].tree == t.tree
    && (t.claimedBy.Some? ==>
          && t.claimedBy.value in rows && rows[t.claimedBy.value].tree == t.tree
          && t.author in Agents.LineageOf(rows, t.claimedBy.value))
  }

  ghost predicate AllInLine(s: State)
    requires Valid(s)
  {
    forall i :: 0 <= i < |s.tasks| ==> InLine(s.agents.rows, s.tasks[i])
  }

  lemma AgentStepKeeps(l: Agents.Limits, s: State, act: Agents.Act)
    requires Valid(s) && AllInLine(s)
    ensures Valid(s.(agents := Agents.Next(l, s.agents, act))) && AllInLine(s.(agents := Agents.Next(l, s.agents, act)))
  {
    Agents.StepKeepsForest(l, s.agents, act);
    var rows, later := s.agents.rows, Agents.Next(l, s.agents, act).rows;
    hide Agents.Next, Agents.Forest, Agents.PendingMatch, Agents.LineageOf;
    forall i | 0 <= i < |s.tasks|
      ensures InLine(later, s.tasks[i])
    {
      assert InLine(rows, s.tasks[i]);
      if s.tasks[i].claimedBy.Some? {
        Agents.LineageStays(rows, later, s.tasks[i].claimedBy.value);
      }
    }
  }

  lemma ClaimKeeps(s: State, caller: nat, id: Option<nat>)
    requires Valid(s) && AllInLine(s) && caller in s.agents.rows
    ensures var tree, line := s.agents.rows[caller].tree, Agents.LineageOf(s.agents.rows, caller);
      AllInLine(s.(tasks := Board.ClaimTask(s.tasks, tree, caller, line, id)))
  {
    hide Agents.Forest, Agents.PendingMatch, Agents.LineageOf;
  }

  lemma AddKeeps(s: State, caller: nat, after: seq<nat>)
    requires Valid(s) && AllInLine(s) && caller in s.agents.rows
    ensures AllInLine(s.(tasks := Board.Add(s.tasks, s.agents.rows[caller].tree, caller, after)))
  {
    hide Agents.Forest, Agents.PendingMatch, Agents.LineageOf;
  }

  lemma StepKeeps(l: Agents.Limits, s: State, act: Act)
    requires Valid(s) && AllInLine(s)
    ensures Valid(Next(l, s, act)) && AllInLine(Next(l, s, act))
  {
    match act {
      case AgentAct(a) =>
        AgentStepKeeps(l, s, a);
      case TaskAdd(caller, after) =>
        if caller in s.agents.rows {
          AddKeeps(s, caller, after);
        }
      case TaskClaim(caller, id) =>
        if caller in s.agents.rows {
          ClaimKeeps(s, caller, id);
        }
      case TaskDone(caller, id, failed) =>
        hide Agents.Forest, Agents.PendingMatch, Agents.LineageOf;
      case Released(agent) =>
        hide Agents.Forest, Agents.PendingMatch, Agents.LineageOf;
    }
  }

  ghost predicate Reaches(l: Agents.Limits, s: State, acts: seq<Act>, t: State)
    decreases |acts|
  {
    if acts == [] then s == t else Valid(s) && Reaches(l, Next(l, s, acts[0]), acts[1..], t)
  }

  const EMPTY: State := State(Agents.EMPTY, [])

  lemma {:induction false} RunKeeps(l: Agents.Limits, s: State, acts: seq<Act>, t: State)
    requires Valid(s) && AllInLine(s) && Reaches(l, s, acts, t)
    ensures Valid(t) && AllInLine(t)
    decreases |acts|
  {
    if acts != [] {
      StepKeeps(l, s, acts[0]);
      hide AllInLine, Valid, Next;
      RunKeeps(l, Next(l, s, acts[0]), acts[1..], t);
    }
  }

  /** In every interleaving of agents coming and going with tasks being added, claimed, finished and released,
    whoever has or had a task is its author or was started, directly or not, by its author. */
  lemma ClaimersAreBelowAuthors(l: Agents.Limits, acts: seq<Act>, t: State, i: nat)
    requires Reaches(l, EMPTY, acts, t) && i < |t.tasks| && t.tasks[i].claimedBy.Some?
    ensures var holder, rows := t.tasks[i].claimedBy.value, t.agents.rows;
      && Agents.Forest(rows) && holder in rows && rows[holder].tree == t.tasks[i].tree
      && t.tasks[i].author in Agents.LineageOf(rows, holder)
  {
    RunKeeps(l, EMPTY, acts, t);
    assert InLine(t.agents.rows, t.tasks[i]);
  }

  // ---------------------------------------------------------------- reading the board by pages

  /** A board entry; its number is its place, from 1. */
  datatype Entry = Entry(tree: nat, author: nat, recipient: Option<nat>, topic: Option<nat>)

  datatype Reader = Reader(tree: nat, id: nat, topic: Option<nat>)

  const READ_LIMIT: nat := 50

  /** Posts to the tree, and direct messages to or from the reader. */
  predicate Seen(e: Entry, r: Reader) {
    && e.tree == r.tree
    && (e.recipient == None || e.recipient == Some(r.id) || e.author == r.id)
    && (r.topic == None || e.topic == r.topic)
  }

  /** Numbers of the entries up to `n` the reader may see, in order. */
  function SeenUpTo(board: seq<Entry>, r: Reader, n: nat): (ids: seq<nat>)
    requires n <= |board|
    ensures forall k :: 0 <= k < |ids| ==> 0 < ids[k] <= n
  {
    if n == 0 then []
    else
      var ids := SeenUpTo(board, r, n - 1);
      if Seen(board[n - 1], r) then ids + [n] else ids
  }

  ghost predicate Ascending(ids: seq<nat>) {
    forall i, j :: 0 <= i < j < |ids| ==> ids[i] < ids[j]
  }

  lemma {:induction false} SeenAscend(board: seq<Entry>, r: Reader, n: nat)
    requires n <= |board|
    ensures Ascending(SeenUpTo(board, r, n))
  {
    if n > 0 {
      SeenAscend(board, r, n - 1);
    }
  }

  /** A reader sees the entries of its tree that are for all, for it or by it, under the topic it asks for, if any. */
  lemma {:induction false} SeenIs(board: seq<Entry>, r: Reader, n: nat, id: nat)
    requires 0 < id <= n <= |board|
    ensures var e := board[id - 1];
      id in SeenUpTo(board, r, n) <==>
        && e.tree == r.tree && (e.recipient.None? || e.recipient.value == r.id || e.author == r.id)
        && (r.topic.None? || (e.topic.Some? && e.topic.value == r.topic.value))
  {
    if id < n {
      SeenIs(board, r, n - 1, id);
    }
  }

  class Posts {
    var entries: seq<Entry>

    constructor ()
      ensures entries == []
    {
      entries := [];
    }

    method Post(e: Entry) returns (id: nat)
      modifies this
      ensures entries == old(entries) + [e] && id == |entries|
    {
      entries := entries + [e];
      id := |entries|;
    }

    /** At most `READ_LIMIT` entries after `since`; `more` tells the reader where to go on. */
    method Read(r: Reader, since: nat) returns (page: seq<nat>, more: Option<nat>)
      ensures since <= |entries| ==>
        var upTo := if more.Some? then more.value else |entries|;
        since <= upTo <= |entries| && SeenUpTo(entries, r, since) + page == SeenUpTo(entries, r, upTo)
      ensures since > |entries| ==> page == []
      ensures |page| <= 50 && (more.Some? <==> |page| == 50)
      ensures more.Some? ==> more.value == page[|page| - 1]
    {
      page := [];
      var n := since;
      while n < |entries| && |page| < READ_LIMIT
        invariant since <= n && |page| <= READ_LIMIT && (n == since ==> page == [])
        invariant since > |entries| ==> n == since
        invariant since <= |entries| ==>
          n <= |entries| && SeenUpTo(entries, r, since) + page == SeenUpTo(entries, r, n)
        invariant |page| == READ_LIMIT ==> page[|page| - 1] == n
      {
        if Seen(entries[n], r) {
          assert SeenUpTo(entries, r, since) + (page + [n + 1]) == SeenUpTo(entries, r, since) + page + [n + 1];
          page := page + [n + 1];
        }
        n := n + 1;
      }
      more := if |page| == READ_LIMIT then Some(page[|page| - 1]) else None;
    }
  }

  /** Posts between two pages leave what was read before as it was. */
  lemma {:induction false} PostsComeAfter(board: seq<Entry>, more: seq<Entry>, r: Reader, n: nat)
    requires n <= |board|
    ensures SeenUpTo(board + more, r, n) == SeenUpTo(board, r, n)
  {
    if n > 0 {
      PostsComeAfter(board, more, r, n - 1);
    }
  }
}
