/** The agents table and the operations under the spawn lock: spawning, resuming, ending and closing within
  the owner's limits. */
module Agents {
  import opened Wrappers

  datatype Refusal = NoSuchAgent | NotYours | TooDeep | TooManyRunning | NoBudget | TooManyOpen | StillRunning | WasClosed | IdTaken

  datatype Status = Running | Idle | Failed | Interrupted | Closed

  datatype Row = Row(tree: nat, parent: Option<nat>, depth: nat, status: Status)

  type Rows = map<nat, Row>

  datatype Limits = Limits(maxDepth: nat, maxChildren: nat, maxAgents: nat)

  // ---------------------------------------------------------------- queries

  function RunningSet(rows: Rows, p: nat): set<nat> {
    set id | id in rows && rows[id].parent == Some(p) && rows[id].status == Running
  }

  function OpenSet(rows: Rows, tree: nat): set<nat> {
    set id | id in rows && rows[id].tree == tree && rows[id].parent.Some? && rows[id].status != Closed
  }

  /** Children of `p` running right now. */
  function RunningChildren(rows: Rows, p: nat): nat {
    |RunningSet(rows, p)|
  }

  /** Spawned agents in `tree` that aren't closed. */
  function OpenInTree(rows: Rows, tree: nat): nat {
    |OpenSet(rows, tree)|
  }

  // ---------------------------------------------------------------- operations

  function SetStatus(rows: Rows, id: nat, status: Status): Rows {
    if id in rows then rows[id := rows[id].(status := status)] else rows
  }

  /** Records how a run ended, unless the agent was closed meanwhile. */
  function Finish(rows: Rows, id: nat, failed: bool): Rows {
    if id in rows && rows[id].status != Closed then SetStatus(rows, id, if failed then Failed else Idle) else rows
  }

  function CheckCanRun(l: Limits, rows: Rows, parent: nat, budget: bool): Option<Refusal> {
    if RunningChildren(rows, parent) >= l.maxChildren then Some(TooManyRunning)
    else if !budget then Some(NoBudget)
    else None
  }

  /** What `spawn` does under its lock; the caller's row is read before, but its tree and depth never change. */
  function Spawn(l: Limits, rows: Rows, caller: nat, id: nat, budget: bool): Result<Rows, Refusal> {
    if caller !in rows then Failure(NoSuchAgent)
    else
      var parent := rows[caller];
      var refused := CheckCanRun(l, rows, caller, budget);
      if parent.depth + 1 > l.maxDepth then Failure(TooDeep)
      else if refused.Some? then Failure(refused.value)
      else if OpenInTree(rows, parent.tree) >= l.maxAgents then Failure(TooManyOpen)
      else if id in rows then Failure(IdTaken)
      else Success(rows[id := Row(parent.tree, Some(caller), parent.depth + 1, Running)])
  }

  /** The part of `resume` before its lock: the status it will act on. */
  function ResumeRead(rows: Rows, caller: nat, id: nat): Result<Status, Refusal> {
    if id !in rows then Failure(NoSuchAgent)
    else if rows[id].parent != Some(caller) then Failure(NotYours)
    else Success(rows[id].status)
  }

  /** The part under the lock, acting on `seen`. */
  function ResumeWrite(l: Limits, rows: Rows, caller: nat, id: nat, seen: Status, budget: bool): Result<Rows, Refusal> {
    if seen == Running then Failure(StillRunning)
    else if seen == Closed then Failure(WasClosed)
    else if caller !in rows then Failure(NoSuchAgent)
    else
      var refused := CheckCanRun(l, rows, caller, budget);
      if refused.Some? then Failure(refused.value) else Success(SetStatus(rows, id, Running))
  }

  function InsertRoot(rows: Rows, id: nat): Rows {
    if id in rows then rows else rows[id := Row(id, None, 0, Idle)]
  }

  // ---------------------------------------------------------------- who may run

  /** What counts as running, and as open. */
  lemma CountsAre(rows: Rows, p: nat, tree: nat)
    ensures RunningChildren(rows, p) == |set x | x in rows && rows[x].parent == Some(p) && rows[x].status == Running|
    ensures OpenInTree(rows, tree) == |set x | x in rows && rows[x].tree == tree && rows[x].parent.Some? && rows[x].status != Closed|
  {
    assert RunningSet(rows, p) == set x | x in rows && rows[x].parent == Some(p) && rows[x].status == Running;
    assert OpenSet(rows, tree) == set x | x in rows && rows[x].tree == tree && rows[x].parent.Some? && rows[x].status != Closed;
  }

  /** A child is started exactly when its caller has a row and is above the deepest level, has room for one more running
    child, the tree has budget left and room for one more open agent, and the id is free; it runs one level below the
    caller, in its tree. */
  lemma SpawnIff(l: Limits, rows: Rows, caller: nat, id: nat, budget: bool)
    ensures Spawn(l, rows, caller, id, budget).Success? <==>
      && caller in rows && rows[caller].depth + 1 <= l.maxDepth
      && |set x | x in rows && rows[x].parent == Some(caller) && rows[x].status == Running| < l.maxChildren
      && budget
      && |set x | x in rows && rows[x].tree == rows[caller].tree && rows[x].parent.Some? && rows[x].status != Closed| < l.maxAgents
      && id !in rows
    ensures Spawn(l, rows, caller, id, budget).Success? ==>
      Spawn(l, rows, caller, id, budget).value == rows[id := Row(rows[caller].tree, Some(caller), rows[caller].depth + 1, Running)]
  {
    CountsAre(rows, caller, if caller in rows then rows[caller].tree else 0);
  }

  /** The refusals of a spawn, the first that applies: no such caller, too deep, too many running, no budget, too many
    open, the id taken. */
  lemma SpawnRefusal(l: Limits, rows: Rows, caller: nat, id: nat, budget: bool)
    requires Spawn(l, rows, caller, id, budget).Failure?
    ensures var why := Spawn(l, rows, caller, id, budget).error;
      && (why == NoSuchAgent <==> caller !in rows)
      && (caller in rows ==>
            var full := |set x | x in rows && rows[x].parent == Some(caller) && rows[x].status == Running| >= l.maxChildren;
            && (why == TooDeep <==> rows[caller].depth >= l.maxDepth)
            && (why == TooManyRunning <==> rows[caller].depth < l.maxDepth && full)
            && (why == NoBudget <==> rows[caller].depth < l.maxDepth && !full && !budget)
            && (why == TooManyOpen || why == IdTaken <==> rows[caller].depth < l.maxDepth && !full && budget)
            && (why == IdTaken ==> id in rows)
            && (why == TooManyOpen ==>
                  |set x | x in rows && rows[x].tree == rows[caller].tree && rows[x].parent.Some? && rows[x].status != Closed|
                    >= l.maxAgents))
  {
    CountsAre(rows, caller, if caller in rows then rows[caller].tree else 0);
  }

  /** A resume acts on the row of a child of the caller only, and writes exactly when what it saw was neither running nor
    closed, the caller has a row and room for one more running child, and there is budget left. */
  lemma ResumeIff(l: Limits, rows: Rows, caller: nat, id: nat, seen: Status, budget: bool)
    ensures ResumeRead(rows, caller, id) ==
      if id !in rows then Failure(NoSuchAgent)
      else if rows[id].parent == Some(caller) then Success(rows[id].status) else Failure(NotYours)
    ensures var r, full := ResumeWrite(l, rows, caller, id, seen, budget),
        |set x | x in rows && rows[x].parent == Some(caller) && rows[x].status == Running| >= l.maxChildren;
      && (r.Success? <==> seen != Running && seen != Closed && caller in rows && !full && budget)
      && (r.Success? && id in rows ==> r.value == rows[id := rows[id].(status := Running)])
      && (r.Success? && id !in rows ==> r.value == rows)
      && (r == Failure(StillRunning) <==> seen == Running)
      && (r == Failure(WasClosed) <==> seen == Closed)
      && (r == Failure(NoSuchAgent) <==> seen != Running && seen != Closed && caller !in rows)
      && (r == Failure(TooManyRunning) <==> seen != Running && seen != Closed && caller in rows && full)
      && (r == Failure(NoBudget) <==> seen != Running && seen != Closed && caller in rows && !full && !budget)
  {
    CountsAre(rows, caller, 0);
  }

  // ---------------------------------------------------------------- the forest

  /** Parents exist one level up, in the same tree. */
  ghost predicate Forest(rows: Rows) {
    forall id :: id in rows ==>
      match rows[id].parent
      case None => rows[id].depth == 0 && rows[id].tree == id
      case Some(p) => p in rows && rows[id].depth == rows[p].depth + 1 && rows[id].tree == rows[p].tree
  }

  /** An agent and everyone above it. */
  function LineageOf(rows: Rows, id: nat): (line: seq<nat>)
    requires Forest(rows) && id in rows
    ensures |line| == rows[id].depth + 1 && line[0] == id
    ensures forall x :: x in line ==> x in rows && rows[x].tree == rows[id].tree
    decreases rows[id].depth
  {
    match rows[id].parent
    case None => [id]
    case Some(p) => [id] + LineageOf(rows, p)
  }

  /** Adding agents and changing statuses leaves every lineage as it was. */
  ghost predicate SameAncestry(rows: Rows, later: Rows) {
    forall id :: id in rows ==> id in later && later[id] == rows[id].(status := later[id].status)
  }

  lemma {:induction false} LineageStays(rows: Rows, later: Rows, id: nat)
    requires Forest(rows) && Forest(later) && SameAncestry(rows, later) && id in rows
    ensures id in later && LineageOf(later, id) == LineageOf(rows, id)
    decreases rows[id].depth
  {
    if rows[id].parent.Some? {
      LineageStays(rows, later, rows[id].parent.value);
    }
  }

  // ---------------------------------------------------------------- interleavings

  datatype Pending = Pending(caller: nat, id: nat, seen: Status)

  /** `reopened` counts the closed rows a resume wrote over. */
  datatype State = State(rows: Rows, pending: map<nat, Pending>, reopened: nat)

  datatype Act =
    | AddRoot(id: nat)
    | SpawnChild(caller: nat, id: nat, budget: bool)
    | BeginResume(op: nat, caller: nat, id: nat)
    | EndResume(op: nat, budget: bool)
    | EndRun(id: nat, failed: bool)
    | CloseOne(id: nat)
    | MarkInterrupted(id: nat)

  function Next(l: Limits, s: State, act: Act): State {
    match act
    case AddRoot(id) => s.(rows := InsertRoot(s.rows, id))
    case SpawnChild(caller, id, budget) =>
      (match Spawn(l, s.rows, caller, id, budget) case Success(r) => s.(rows := r) case Failure(_) => s)
    case BeginResume(op, caller, id) =>
      (match ResumeRead(s.rows, caller, id)
       case Success(seen) => s.(pending := s.pending[op := Pending(caller, id, seen)])
       case Failure(_) => s)
    case EndResume(op, budget) =>
      if op !in s.pending then s
      else
        var p := s.pending[op];
        var done := s.(pending := s.pending - {op});
        (match ResumeWrite(l, s.rows, p.caller, p.id, p.seen, budget)
         case Failure(_) => done
         case Success(r) =>
           done.(rows := r, reopened := if p.id in s.rows && s.rows[p.id].status == Closed then s.reopened + 1 else s.reopened))
    case EndRun(id, failed) => s.(rows := Finish(s.rows, id, failed))
    case CloseOne(id) => s.(rows := SetStatus(s.rows, id, Closed))
    case MarkInterrupted(id) =>
      if id in s.rows && s.rows[id].status == Running then s.(rows := SetStatus(s.rows, id, Interrupted)) else s
  }

  ghost predicate WithinLimits(l: Limits, s: State) {
    && (forall id :: id in s.rows ==> s.rows[id].depth <= l.maxDepth)
    && (forall p: nat :: RunningChildren(s.rows, p) <= l.maxChildren)
    && (forall t: nat :: OpenInTree(s.rows, t) <= l.maxAgents + s.reopened)
  }

  ghost predicate PendingMatch(s: State) {
    forall op :: op in s.pending ==>
      s.pending[op].id in s.rows && s.rows[s.pending[op].id].parent == Some(s.pending[op].caller)
  }

  lemma Grow(a: set<nat>, b: set<nat>, x: nat)
    requires b <= a + {x}
    ensures |b| <= |a| + 1 && (b <= a ==> |b| <= |a|)
  {
    Shrink(a + {x}, b);
    if b <= a {
      Shrink(a, b);
    }
  }

  lemma {:induction false} Shrink(a: set<nat>, b: set<nat>)
    requires b <= a
    ensures |b| <= |a|
  {
    if b != {} {
      var x :| x in b;
      Shrink(a - {x}, b - {x});
    }
  }

  /** `later` differs from `rows` in one row: a status, or a new agent where its parent says. */
  ghost predicate OneRow(rows: Rows, later: Rows, id: nat) {
    && rows.Keys <= later.Keys && id in later
    && (forall x :: x in later && x != id ==> x in rows && later[x] == rows[x])
    && (if id in rows then later[id] == rows[id].(status := later[id].status)
        else match later[id].parent
          case None => later[id].depth == 0 && later[id].tree == id
          case Some(p) => p in rows && later[id].depth == rows[p].depth + 1 && later[id].tree == rows[p].tree)
  }

  predicate Adds(rows: Rows, row: Row, id: nat, p: nat) {
    row.parent == Some(p) && row.status == Running
  }

  predicate Opens(rows: Rows, row: Row, id: nat, t: nat) {
    row.tree == t && row.parent.Some? && row.status != Closed && (id in rows ==> rows[id].status == Closed)
  }

  /** Writing one row changes the counts by at most that row. */
  lemma CountsAfter(rows: Rows, later: Rows, id: nat)
    requires OneRow(rows, later, id)
    ensures forall p: nat ::
      (RunningChildren(later, p) <= RunningChildren(rows, p) + if Adds(rows, later[id], id, p) then 1 else 0)
    ensures forall t: nat :: (OpenInTree(later, t) <= OpenInTree(rows, t) + if Opens(rows, later[id], id, t) then 1 else 0)
  {
    forall p: nat
      ensures RunningChildren(later, p) <= RunningChildren(rows, p) + if Adds(rows, later[id], id, p) then 1 else 0
    {
      Grow(RunningSet(rows, p), RunningSet(later, p), id);
    }
    forall t: nat
      ensures OpenInTree(later, t) <= OpenInTree(rows, t) + if Opens(rows, later[id], id, t) then 1 else 0
    {
      Grow(OpenSet(rows, t), OpenSet(later, t), id);
    }
  }

  lemma OneRowKeepsForest(rows: Rows, later: Rows, id: nat)
    requires Forest(rows) && OneRow(rows, later, id)
    ensures Forest(later) && SameAncestry(rows, later)
  {
  }

  function Subject(s: State, act: Act): nat {
    match act
    case AddRoot(id) => id
    case SpawnChild(_, id, _) => id
    case BeginResume(_, _, id) => id
    case EndResume(op, _) => if op in s.pending then s.pending[op].id else 0
    case EndRun(id, _) => id
    case CloseOne(id) => id
    case MarkInterrupted(id) => id
  }

  lemma StepWritesOneRow(l: Limits, s: State, act: Act)
    requires PendingMatch(s)
    ensures Next(l, s, act).rows == s.rows || OneRow(s.rows, Next(l, s, act).rows, Subject(s, act))
  {
  }

  lemma StepKeepsForest(l: Limits, s: State, act: Act)
    requires Forest(s.rows) && PendingMatch(s)
    ensures var t := Next(l, s, act); Forest(t.rows) && PendingMatch(t) && SameAncestry(s.rows, t.rows)
  {
    StepWritesOneRow(l, s, act);
    StepKeepsPending(l, s, act);
    var t := Next(l, s, act);
    hide Next;
    if t.rows != s.rows {
      OneRowKeepsForest(s.rows, t.rows, Subject(s, act));
    }
  }

  lemma StepKeepsPending(l: Limits, s: State, act: Act)
    requires PendingMatch(s)
    ensures PendingMatch(Next(l, s, act))
  {
  }

  lemma StepKeepsLimits(l: Limits, s: State, act: Act)
    requires PendingMatch(s) && WithinLimits(l, s)
    ensures WithinLimits(l, Next(l, s, act))
  {
    var t := Next(l, s, act);
    StepWritesOneRow(l, s, act);
    if t.rows != s.rows {
      CountsAfter(s.rows, t.rows, Subject(s, act));
      CountedStep(l, s, act);
    }
  }

  lemma CountedStep(l: Limits, s: State, act: Act)
    requires PendingMatch(s) && WithinLimits(l, s)
    requires var rows, id := Next(l, s, act).rows, Subject(s, act);
      && id in rows
      && (forall p: nat :: RunningChildren(rows, p) <= RunningChildren(s.rows, p) + if Adds(s.rows, rows[id], id, p) then 1 else 0)
      && (forall t: nat :: OpenInTree(rows, t) <= OpenInTree(s.rows, t) + if Opens(s.rows, rows[id], id, t) then 1 else 0)
    ensures WithinLimits(l, Next(l, s, act))
  {
    hide OpenInTree, RunningChildren;
  }

  /** A step that reopens nothing leaves closed agents closed. */
  ghost predicate ClosedStays(rows: Rows, later: Rows) {
    forall id :: id in rows && rows[id].status == Closed ==> id in later && later[id].status == Closed
  }

  /** The step that gives a closed agent back to running: a resume whose read saw it neither running nor closed,
    with room for another running child and budget left. */
  predicate Reopens(l: Limits, s: State, act: Act) {
    act.EndResume? && act.op in s.pending &&
    var p := s.pending[act.op];
    && p.id in s.rows && s.rows[p.id].status == Closed && p.seen != Running && p.seen != Closed
    && p.caller in s.rows && RunningChildren(s.rows, p.caller) < l.maxChildren && act.budget
  }

  lemma ReopensIff(l: Limits, s: State, act: Act)
    requires PendingMatch(s)
    ensures ClosedStays(s.rows, Next(l, s, act).rows) <==> !Reopens(l, s, act)
    ensures Next(l, s, act).reopened == if Reopens(l, s, act) then s.reopened + 1 else s.reopened
  {
    var t := Next(l, s, act);
    hide RunningChildren;
    if Reopens(l, s, act) {
      assert t.rows[s.pending[act.op].id].status == Running;
    }
  }

  lemma ReopeningAdds(l: Limits, s: State, act: Act)
    requires PendingMatch(s) && Reopens(l, s, act)
    ensures var id := s.pending[act.op].id;
      forall t: nat :: OpenInTree(Next(l, s, act).rows, t) == OpenInTree(s.rows, t) + if s.rows[id].tree == t then 1 else 0
  {
    hide RunningChildren;
    var id := s.pending[act.op].id;
    var rows := Next(l, s, act).rows;
    assert rows == s.rows[id := s.rows[id].(status := Running)];
    forall t: nat
      ensures OpenInTree(rows, t) == OpenInTree(s.rows, t) + if s.rows[id].tree == t then 1 else 0
    {
      if s.rows[id].tree == t {
        assert OpenSet(rows, t) == OpenSet(s.rows, t) + {id} && id !in OpenSet(s.rows, t);
      } else {
        assert OpenSet(rows, t) == OpenSet(s.rows, t);
      }
    }
  }

  lemma OthersStayWithin(l: Limits, s: State, act: Act, t: nat)
    requires PendingMatch(s) && OpenInTree(s.rows, t) <= l.maxAgents && !Reopens(l, s, act)
    ensures OpenInTree(Next(l, s, act).rows, t) <= l.maxAgents
  {
    var u := Next(l, s, act);
    StepWritesOneRow(l, s, act);
    if u.rows != s.rows {
      CountsAfter(s.rows, u.rows, Subject(s, act));
      hide OpenInTree, RunningChildren;
      assert act.SpawnChild? || !Opens(s.rows, u.rows[Subject(s, act)], Subject(s, act), t);
    }
  }

  /** A tree goes over its limit of open agents exactly when a full one has a closed agent given back. */
  lemma OverLimitIff(l: Limits, s: State, act: Act, t: nat)
    requires PendingMatch(s) && OpenInTree(s.rows, t) <= l.maxAgents
    ensures OpenInTree(Next(l, s, act).rows, t) > l.maxAgents <==>
      Reopens(l, s, act) && s.rows[s.pending[act.op].id].tree == t && OpenInTree(s.rows, t) == l.maxAgents
  {
    hide Next, OpenInTree;
    if Reopens(l, s, act) {
      ReopeningAdds(l, s, act);
    } else {
      OthersStayWithin(l, s, act, t);
    }
  }

  function After(l: Limits, s: State, acts: seq<Act>): State
    decreases |acts|
  {
    if acts == [] then s else After(l, Next(l, s, acts[0]), acts[1..])
  }

  /** How often a run gives a closed agent back to running. */
  function Reopenings(l: Limits, s: State, acts: seq<Act>): nat
    decreases |acts|
  {
    if acts == [] then 0 else (if Reopens(l, s, acts[0]) then 1 else 0) + Reopenings(l, Next(l, s, acts[0]), acts[1..])
  }

  const EMPTY: State := State(map[], map[], 0)

  lemma {:induction false} RunKeeps(l: Limits, s: State, acts: seq<Act>)
    requires Forest(s.rows) && PendingMatch(s) && WithinLimits(l, s)
    ensures var t := After(l, s, acts);
      Forest(t.rows) && PendingMatch(t) && WithinLimits(l, t) && SameAncestry(s.rows, t.rows)
    decreases |acts|
  {
    if acts != [] {
      StepKeepsForest(l, s, acts[0]);
      StepKeepsLimits(l, s, acts[0]);
      hide Next, WithinLimits, PendingMatch, Forest;
      RunKeeps(l, Next(l, s, acts[0]), acts[1..]);
    }
  }

  lemma {:induction false} RunReopens(l: Limits, s: State, acts: seq<Act>)
    requires PendingMatch(s)
    ensures After(l, s, acts).reopened == s.reopened + Reopenings(l, s, acts)
    ensures Reopenings(l, s, acts) == 0 ==> ClosedStays(s.rows, After(l, s, acts).rows)
    decreases |acts|
  {
    hide Next, PendingMatch, Reopens;
    if acts != [] {
      StepKeepsPending(l, s, acts[0]);
      ReopensIff(l, s, acts[0]);
      RunReopens(l, Next(l, s, acts[0]), acts[1..]);
    }
  }

  /** In every interleaving: a forest, no agent too deep, no parent with too many running children, and no more
    open agents than the limit plus the resumes that wrote over a closed row. Only those undo a close. */
  lemma LimitsHold(l: Limits, acts: seq<Act>, more: seq<Act>)
    ensures var s, t := After(l, EMPTY, acts), After(l, After(l, EMPTY, acts), more);
      && Forest(s.rows)
      && (forall id :: id in s.rows ==> s.rows[id].depth <= l.maxDepth)
      && (forall p: nat :: RunningChildren(s.rows, p) <= l.maxChildren)
      && (forall tree: nat :: OpenInTree(s.rows, tree) <= l.maxAgents + Reopenings(l, EMPTY, acts))
      && (Reopenings(l, s, more) == 0 ==> ClosedStays(s.rows, t.rows))
  {
    hide Reopenings, ClosedStays, After;
    RunKeeps(l, EMPTY, acts);
    RunReopens(l, EMPTY, acts);
    RunReopens(l, After(l, EMPTY, acts), more);
  }

  // ---------------------------------------------------------------- the read under the lock

  /** Resumes that read under the lock: between a read and its write nobody else spawns or resumes. Runs end and
    agents are closed without the lock, but `closing` says whether the latter happens in between. */
  predicate Locked(acts: seq<Act>, held: Option<nat>, closing: bool)
    decreases |acts|
  {
    acts == [] ||
    match acts[0]
    case SpawnChild(_, _, _) => held.None? && Locked(acts[1..], held, closing)
    case BeginResume(op, _, _) => held.None? && Locked(acts[1..], Some(op), closing)
    case EndResume(op, _) => held == Some(op) && Locked(acts[1..], None, closing)
    case CloseOne(_) => (held.None? || closing) && Locked(acts[1..], held, closing)
    case _ => Locked(acts[1..], held, closing)
  }

  /** The resume under way will write, and the row it will write to was closed meanwhile. */
  predicate WillReopen(s: State, held: Option<nat>, tree: nat) {
    held.Some? && held.value in s.pending &&
    var p := s.pending[held.value];
    && p.seen != Running && p.seen != Closed
    && p.id in s.rows && s.rows[p.id].status == Closed && s.rows[p.id].tree == tree
  }

  ghost predicate OnlyHeld(s: State, held: Option<nat>) {
    forall op :: op in s.pending ==> held == Some(op)
  }

  /** A place is kept for the agent about to be reopened. */
  ghost predicate PlaceKept(l: Limits, s: State, held: Option<nat>) {
    forall t: nat :: OpenInTree(s.rows, t) + (if WillReopen(s, held, t) then 1 else 0) <= l.maxAgents
  }

  function HeldAfter(held: Option<nat>, act: Act): Option<nat> {
    match act
    case BeginResume(op, _, _) => Some(op)
    case EndResume(_, _) => None
    case _ => held
  }

  function HeldIn(held: Option<nat>, acts: seq<Act>): Option<nat>
    decreases |acts|
  {
    if acts == [] then held else HeldIn(HeldAfter(held, acts[0]), acts[1..])
  }

  lemma ClosingFrees(rows: Rows, id: nat, t: nat)
    requires id in rows && rows[id].status != Closed && rows[id].parent.Some? && rows[id].tree == t
    ensures OpenInTree(SetStatus(rows, id, Closed), t) == OpenInTree(rows, t) - 1
  {
    assert OpenSet(SetStatus(rows, id, Closed), t) == OpenSet(rows, t) - {id};
  }

  lemma CloseKeepsPlace(l: Limits, s: State, held: Option<nat>, id: nat)
    requires PendingMatch(s) && PlaceKept(l, s, held)
    ensures PlaceKept(l, Next(l, s, CloseOne(id)), held)
  {
    var u := Next(l, s, CloseOne(id));
    StepWritesOneRow(l, s, CloseOne(id));
    if u.rows != s.rows {
      CountsAfter(s.rows, u.rows, id);
      forall t: nat
        ensures OpenInTree(u.rows, t) + (if WillReopen(u, held, t) then 1 else 0) <= l.maxAgents
      {
        if WillReopen(u, held, t) && !WillReopen(s, held, t) {
          hide OpenInTree;
          ClosingFrees(s.rows, id, t);
        }
      }
    }
  }

  lemma StepKeepsPlace(l: Limits, s: State, held: Option<nat>, act: Act)
    requires PendingMatch(s) && OnlyHeld(s, held) && PlaceKept(l, s, held)
    requires match act
      case SpawnChild(_, _, _) => held.None?
      case BeginResume(_, _, _) => held.None?
      case EndResume(op, _) => held == Some(op)
      case _ => true
    ensures var u := Next(l, s, act); OnlyHeld(u, HeldAfter(held, act)) && PlaceKept(l, u, HeldAfter(held, act))
  {
    if act.CloseOne? {
      CloseKeepsPlace(l, s, held, act.id);
    } else {
      var u := Next(l, s, act);
      StepWritesOneRow(l, s, act);
      if u.rows != s.rows {
        CountsAfter(s.rows, u.rows, Subject(s, act));
      }
      OtherKeepsPlace(l, s, held, act);
    }
  }

  lemma OtherKeepsPlace(l: Limits, s: State, held: Option<nat>, act: Act)
    requires PendingMatch(s) && OnlyHeld(s, held) && PlaceKept(l, s, held) && !act.CloseOne?
    requires match act
      case SpawnChild(_, _, _) => held.None?
      case BeginResume(_, _, _) => held.None?
      case EndResume(op, _) => held == Some(op)
      case _ => true
    requires var u, id := Next(l, s, act), Subject(s, act);
      || u.rows == s.rows
      || (id in u.rows && forall t: nat ::
            OpenInTree(u.rows, t) <= OpenInTree(s.rows, t) + (if Opens(s.rows, u.rows[id], id, t) then 1 else 0))
    ensures var u := Next(l, s, act); OnlyHeld(u, HeldAfter(held, act)) && PlaceKept(l, u, HeldAfter(held, act))
  {
  }

  lemma {:induction false} LockedKeepsPlace(l: Limits, s: State, held: Option<nat>, acts: seq<Act>, closing: bool)
    requires Forest(s.rows) && PendingMatch(s) && OnlyHeld(s, held) && PlaceKept(l, s, held) && Locked(acts, held, closing)
    ensures forall t: nat :: OpenInTree(After(l, s, acts).rows, t) <= l.maxAgents
    decreases |acts|
  {
    if acts != [] {
      StepKeepsForest(l, s, acts[0]);
      StepKeepsPlace(l, s, held, acts[0]);
      hide Next, PendingMatch, Forest, OnlyHeld, PlaceKept;
      LockedKeepsPlace(l, Next(l, s, acts[0]), HeldAfter(held, acts[0]), acts[1..], closing);
    }
  }

  /** With the read under the lock the open-agents limit holds outright, whatever is closed in between. */
  lemma LockedReadKeepsLimit(l: Limits, acts: seq<Act>)
    requires Locked(acts, None, true)
    ensures forall tree: nat :: OpenInTree(After(l, EMPTY, acts).rows, tree) <= l.maxAgents
  {
    LockedKeepsPlace(l, EMPTY, None, acts, true);
  }

  lemma {:induction false} LockedReopensNothing(l: Limits, s: State, held: Option<nat>, acts: seq<Act>)
    requires Forest(s.rows) && PendingMatch(s) && OnlyHeld(s, held) && Locked(acts, held, false)
    requires forall t: nat :: !WillReopen(s, held, t)
    ensures After(l, s, acts).reopened == s.reopened && ClosedStays(s.rows, After(l, s, acts).rows)
    ensures var t := After(l, s, acts);
      && Forest(t.rows) && PendingMatch(t) && OnlyHeld(t, HeldIn(held, acts))
      && forall tree: nat :: !WillReopen(t, HeldIn(held, acts), tree)
    decreases |acts|
  {
    if acts != [] {
      var u := Next(l, s, acts[0]);
      StepKeepsForest(l, s, acts[0]);
      ReopensIff(l, s, acts[0]);
      StepReservesNothing(l, s, held, acts[0]);
      hide Next, PendingMatch, Forest, OnlyHeld, WillReopen, Reopens;
      LockedReopensNothing(l, u, HeldAfter(held, acts[0]), acts[1..]);
    }
  }

  lemma StepReservesNothing(l: Limits, s: State, held: Option<nat>, act: Act)
    requires PendingMatch(s) && OnlyHeld(s, held) && forall t: nat :: !WillReopen(s, held, t)
    requires match act
      case SpawnChild(_, _, _) => held.None?
      case BeginResume(_, _, _) => held.None?
      case EndResume(op, _) => held == Some(op)
      case CloseOne(_) => held.None?
      case _ => true
    ensures !Reopens(l, s, act)
    ensures var u, h := Next(l, s, act), HeldAfter(held, act); OnlyHeld(u, h) && forall t: nat :: !WillReopen(u, h, t)
  {
    if act.EndResume? && act.op in s.pending && s.pending[act.op].id in s.rows {
      assert !WillReopen(s, held, s.rows[s.pending[act.op].id].tree);
    }
    var u, h := Next(l, s, act), HeldAfter(held, act);
    forall t: nat
      ensures !WillReopen(u, h, t)
    {
      assert !WillReopen(s, held, t);
    }
  }

  /** Closed is final once closing, too, waits for a resume under way. */
  lemma ClosedIsFinal(l: Limits, acts: seq<Act>, more: seq<Act>)
    requires Locked(acts, None, false) && Locked(more, HeldIn(None, acts), false)
    ensures ClosedStays(After(l, EMPTY, acts).rows, After(l, After(l, EMPTY, acts), more).rows)
  {
    LockedReopensNothing(l, EMPTY, None, acts);
    LockedReopensNothing(l, After(l, EMPTY, acts), HeldIn(None, acts), more);
  }

  // ---------------------------------------------------------------- the stale read, step by step

  /** The root starts agents 1 and 3, agent 1 starts agent 2, which ends. Agent 1 resumes agent 2 and has read its
    row; the root closes agent 1's tree; agent 3 starts agents in the places freed; the resume writes. */
  function StaleAct(i: nat): Act {
    if i == 0 then AddRoot(0)
    else if i == 1 then SpawnChild(0, 1, true)
    else if i == 2 then SpawnChild(0, 3, true)
    else if i == 3 then SpawnChild(1, 2, true)
    else if i == 4 then EndRun(2, false)
    else if i == 5 then BeginResume(7, 1, 2)
    else if i == 6 then CloseOne(1)
    else if i == 7 then CloseOne(2)
    else if i == 8 then SpawnChild(3, 4, true)
    else if i == 9 then SpawnChild(3, 5, true)
    else EndResume(7, true)
  }

  /** The agents after `i` of these steps. */
  function Present(i: nat): set<nat> {
    if i == 0 then {}
    else if i == 1 then {0}
    else if i == 2 then {0, 1}
    else if i == 3 then {0, 1, 3}
    else if i <= 8 then {0, 1, 2, 3}
    else if i == 9 then {0, 1, 2, 3, 4}
    else {0, 1, 2, 3, 4, 5}
  }

  function RowAt(i: nat, x: nat): Row {
    if x == 0 then Row(0, None, 0, Idle)
    else if x == 1 then Row(0, Some(0), 1, if i >= 7 then Closed else Running)
    else if x == 2 then Row(0, Some(1), 2, if i <= 4 || i >= 11 then Running else if i <= 7 then Idle else Closed)
    else if x == 3 then Row(0, Some(0), 1, Running)
    else Row(0, Some(3), 2, Running)
  }

  function StaleState(i: nat): State {
    State(map x | x in Present(i) :: RowAt(i, x), if 6 <= i <= 10 then map[7 := Pending(1, 2, Idle)] else map[],
          if i >= 11 then 1 else 0)
  }

  const TIGHT: Limits := Limits(2, 2, 3)

  lemma EarlyCounts(i: nat)
    requires 1 <= i <= 3
    ensures i <= 2 ==> RunningChildren(StaleState(i).rows, 0) == i - 1 && OpenInTree(StaleState(i).rows, 0) == i - 1
    ensures i == 3 ==> RunningChildren(StaleState(i).rows, 1) == 0 && OpenInTree(StaleState(i).rows, 0) == 2
  {
    var rows := StaleState(i).rows;
    if i <= 2 {
      assert RunningSet(rows, 0) == (if i == 1 then {} else {1}) && OpenSet(rows, 0) == if i == 1 then {} else {1};
    } else {
      assert RunningSet(rows, 1) == {} && OpenSet(rows, 0) == {1, 3};
    }
  }

  lemma LateCounts(i: nat)
    requires 8 <= i <= 10
    ensures i <= 9 ==> RunningChildren(StaleState(i).rows, 3) == i - 8 && OpenInTree(StaleState(i).rows, 0) == i - 7
    ensures i in {8, 10} ==> RunningChildren(StaleState(i).rows, 1) == 0
  {
    var rows := StaleState(i).rows;
    if i <= 9 {
      assert RunningSet(rows, 3) == (if i == 8 then {} else {4}) && OpenSet(rows, 0) == if i == 8 then {3} else {3, 4};
    }
    if i in {8, 10} {
      assert RunningSet(rows, 1) == {};
    }
  }

  lemma OverCount()
    ensures OpenInTree(StaleState(11).rows, 0) == 4
  {
    assert OpenSet(StaleState(11).rows, 0) == {2, 3, 4, 5};
  }

  lemma EarlyMoves(i: nat)
    requires i < 4
    ensures Next(TIGHT, StaleState(i), StaleAct(i)) == StaleState(i + 1)
  {
    hide RunningChildren, OpenInTree;
    if i > 0 {
      EarlyCounts(i);
    }
    assert Next(TIGHT, StaleState(i), StaleAct(i)).rows == StaleState(i + 1).rows;
  }

  lemma MiddleMoves(i: nat)
    requires 4 <= i < 8
    ensures Next(TIGHT, StaleState(i), StaleAct(i)) == StaleState(i + 1)
  {
    hide RunningChildren, OpenInTree;
    assert Next(TIGHT, StaleState(i), StaleAct(i)).rows == StaleState(i + 1).rows;
  }

  lemma LateMoves(i: nat)
    requires 8 <= i < 11
    ensures Next(TIGHT, StaleState(i), StaleAct(i)) == StaleState(i + 1)
  {
    hide RunningChildren, OpenInTree;
    LateCounts(i);
    assert Next(TIGHT, StaleState(i), StaleAct(i)).rows == StaleState(i + 1).rows;
  }

  lemma StaleMoves(i: nat)
    requires i < 11
    ensures Next(TIGHT, StaleState(i), StaleAct(i)) == StaleState(i + 1)
  {
    hide Next, StaleState, StaleAct;
    if i < 4 {
      EarlyMoves(i);
    } else if i < 8 {
      MiddleMoves(i);
    } else {
      LateMoves(i);
    }
  }

  function StaleFrom(i: nat, j: nat): seq<Act>
    requires i <= j
    decreases j - i
  {
    if i == j then [] else [StaleAct(i)] + StaleFrom(i + 1, j)
  }

  lemma {:induction false} StaleRuns(i: nat, j: nat)
    requires i <= j <= 11
    ensures After(TIGHT, StaleState(i), StaleFrom(i, j)) == StaleState(j)
    decreases j - i
  {
    hide StaleState, StaleAct, Next;
    if i < j {
      StaleMoves(i);
      StaleRuns(i + 1, j);
      assert ([StaleAct(i)] + StaleFrom(i + 1, j))[1..] == StaleFrom(i + 1, j);
    }
  }

  lemma StaleFacts()
    ensures StaleState(0) == EMPTY
    ensures 2 in StaleState(8).rows && StaleState(8).rows[2].status == Closed
    ensures 2 in StaleState(11).rows && StaleState(11).rows[2].status == Running
  {
  }

  /** As the code has it, two of the four do fail: a closed agent runs again, and a tree limited to three open agents
    has four. */
  lemma StaleReadReopens()
    ensures var s, t := After(TIGHT, EMPTY, StaleFrom(0, 8)), After(TIGHT, After(TIGHT, EMPTY, StaleFrom(0, 8)), StaleFrom(8, 11));
      && 2 in s.rows && s.rows[2].status == Closed
      && 2 in t.rows && t.rows[2].status == Running
      && OpenInTree(t.rows, 0) == 4 > TIGHT.maxAgents
  {
    hide StaleState, StaleFrom, OpenInTree;
    StaleFacts();
    StaleRuns(0, 8);
    StaleRuns(8, 11);
    OverCount();
  }

  lemma OverwriteMoves()
    ensures var t := Next(TIGHT, StaleState(8), EndResume(7, true)); 2 in t.rows && t.rows[2].status == Running
  {
    LateCounts(8);
    hide RunningChildren;
  }

  /** A read under the lock doesn't make closed final, since closing doesn't take the lock: agent 1's resume read an
    idle agent 2, the root closes agent 1's tree, and the resume writes. */
  lemma CloseIsOverwritten()
    ensures var before, acts := StaleFrom(0, 8), StaleFrom(0, 8) + [EndResume(7, true)];
      && Locked(acts, None, true)
      && var s, t := After(TIGHT, EMPTY, before), After(TIGHT, EMPTY, acts);
      && 2 in s.rows && s.rows[2].status == Closed
      && 2 in t.rows && t.rows[2].status == Running
  {
    hide StaleState, StaleFrom, Locked, Next;
    StaleFacts();
    StaleRuns(0, 8);
    OverwriteMoves();
    AfterSnoc(TIGHT, EMPTY, StaleFrom(0, 8), EndResume(7, true));
    StaleIsLocked(0);
  }

  lemma {:induction false} AfterSnoc(l: Limits, s: State, acts: seq<Act>, act: Act)
    ensures After(l, s, acts + [act]) == Next(l, After(l, s, acts), act)
    decreases |acts|
  {
    hide Next;
    if acts != [] {
      assert (acts + [act])[1..] == acts[1..] + [act];
      AfterSnoc(l, Next(l, s, acts[0]), acts[1..], act);
    }
  }

  lemma {:induction false} StaleIsLocked(i: nat)
    requires i <= 8
    ensures Locked(StaleFrom(i, 8) + [EndResume(7, true)], if i >= 6 then Some(7) else None, true)
    decreases 8 - i
  {
    var rest := [EndResume(7, true)];
    if i == 8 {
      assert StaleFrom(8, 8) + rest == rest && rest[1..] == [];
    } else {
      StaleIsLocked(i + 1);
      assert (StaleFrom(i, 8) + rest)[1..] == StaleFrom(i + 1, 8) + rest;
    }
  }
}
