/** Committing what a run changed and nothing else, and taking it back, over an abstract git: trees are maps
  from paths to contents. */
module AutoCommit {
  import opened Wrappers

  type Path = nat

  type Tree = map<Path, nat>

  /** What is at `p`, if anything. */
  function At(t: Tree, p: Path): Option<nat> {
    if p in t then Some(t[p]) else None
  }

  /** `base`, but as in `from` on the paths `ps`. */
  function Overlay(base: Tree, from: Tree, ps: set<Path>): (t: Tree)
    ensures forall p :: At(t, p) == if p in ps then At(from, p) else At(base, p)
  {
    map p | p in base.Keys + from.Keys && (if p in ps then p in from else p in base) ::
      if p in ps then from[p] else base[p]
  }

  lemma SameTree(a: Tree, b: Tree)
    requires forall p :: At(a, p) == At(b, p)
    ensures a == b
  {
    forall p | p in a.Keys + b.Keys
      ensures p in a && p in b && a[p] == b[p]
    {
      assert At(a, p) == At(b, p);
    }
    assert a.Keys == b.Keys;
  }

  // ---------------------------------------------------------------- git

  datatype Branch = Ours(n: nat) | Theirs(n: nat)

  datatype Head = On(branch: Branch) | Detached(commit: nat)

  datatype Revision = Revision(tree: Tree, parent: Option<nat>, tagged: bool)

  /** `busy`: a merge, a rebase, a cherry-pick or a revert is in progress. */
  datatype Git = Git(commits: seq<Revision>, refs: map<Branch, nat>, head: Head, index: Tree, work: Tree, busy: bool) {
    function Tip(): Option<nat> {
      match head
      case On(b) => if b in refs then Some(refs[b]) else None
      case Detached(c) => Some(c)
    }

    /** Refs and parents point at commits; parents are older. */
    ghost predicate Valid() {
      && (forall b :: b in refs ==> refs[b] < |commits|)
      && (head.Detached? ==> head.commit < |commits|)
      && (forall c :: 0 <= c < |commits| && commits[c].parent.Some? ==> commits[c].parent.value < c)
    }

    function HeadTree(): Tree
      requires Valid()
    {
      if Tip().Some? then commits[Tip().value].tree else map[]
    }

    /** A path `git status` lists. */
    predicate IsDirty(p: Path)
      requires Valid()
    {
      At(HeadTree(), p) != At(index, p) || At(index, p) != At(work, p)
    }

    function Dirty(): (ps: set<Path>)
      requires Valid()
      ensures forall p :: p in ps <==> IsDirty(p)
    {
      set p | p in HeadTree().Keys + index.Keys + work.Keys && IsDirty(p)
    }

    /** `update-ref HEAD`: the branch HEAD is on moves, or HEAD itself. */
    function Moved(c: nat): Git {
      match head
      case On(b) => this.(refs := refs[b := c])
      case Detached(_) => this.(head := Detached(c))
    }
  }

  // ---------------------------------------------------------------- a run's commit

  datatype Mode = Current | New

  /** The dirty paths when the run started, and what was there. */
  type Start = map<Path, Option<nat>>

  datatype Outcome =
    | Silent
    | NothingCommitted(owners: set<Path>)
    | Committed(paths: nat, owners: set<Path>)
    | NotCommitted(why: Why, paths: nat, owners: set<Path>)

  datatype Why = InProgress | DetachedHead | NoFreeName | AddFailed | Rejected

  function Snapshot(g: Git): Option<Start>
    requires g.Valid()
  {
    if g.Tip().None? then None else Some(map p | p in g.Dirty() :: At(g.work, p))
  }

  function AgentPaths(g: Git, start: Start): set<Path>
    requires g.Valid()
  {
    set p | p in g.Dirty() && p !in start
  }

  function OwnersPaths(g: Git, start: Start): set<Path> {
    set p | p in start && At(g.work, p) != start[p]
  }

  /** The first of a hundred names that is free. */
  function FreeName(refs: map<Branch, nat>, n: nat): (r: Option<nat>)
    requires n <= 100
    ensures r.Some? ==> n <= r.value < 100 && Ours(r.value) !in refs && forall k :: n <= k < r.value ==> Ours(k) in refs
    ensures r.None? ==> forall k :: n <= k < 100 ==> Ours(k) in refs
    decreases 100 - n
  {
    if n == 100 then None else if Ours(n) !in refs then Some(n) else FreeName(refs, n + 1)
  }

  /** On the branch to commit to, or why not. */
  function Switched(g: Git, mode: Mode): (Git, Option<Why>)
    requires g.Tip().Some?
  {
    if mode == Current then (g, if g.head.Detached? then Some(DetachedHead) else None)
    else if g.head.On? && g.head.branch.Ours? then (g, None)
    else
      match FreeName(g.refs, 0)
      case None => (g, Some(NoFreeName))
      case Some(n) => (g.(refs := g.refs[Ours(n) := g.Tip().value], head := On(Ours(n))), None)
  }

  predicate AddMatches(g: Git, ps: set<Path>) {
    forall p :: p in ps ==> p in g.index || p in g.work
  }

  function Added(g: Git, ps: set<Path>): Git {
    g.(index := Overlay(g.index, g.work, ps))
  }

  /** `git commit --only`: every path has to be known, something has to change, and no hook may object. */
  predicate CommitAccepted(g: Git, ps: set<Path>, hooks: bool)
    requires g.Valid()
  {
    && (forall p :: p in ps ==> p in g.HeadTree() || p in g.index)
    && Overlay(g.HeadTree(), g.work, ps) != g.HeadTree()
    && hooks
  }

  function CommittedOnly(g: Git, ps: set<Path>): Git
    requires g.Valid()
  {
    var c := Revision(Overlay(g.HeadTree(), g.work, ps), g.Tip(), true);
    g.(commits := g.commits + [c], index := Overlay(g.index, g.work, ps)).Moved(|g.commits|)
  }

  function ResetPaths(g: Git, ps: set<Path>): Git
    requires g.Valid()
  {
    g.(index := Overlay(g.index, g.HeadTree(), ps))
  }

  lemma SwitchKeeps(g: Git, mode: Mode)
    requires g.Valid() && g.Tip().Some?
    ensures var h := Switched(g, mode).0;
      && h.Valid() && h.Tip() == g.Tip() && h.HeadTree() == g.HeadTree() && h.commits == g.commits
      && h.index == g.index && h.work == g.work && h.busy == g.busy
      && (forall b :: b in g.refs ==> b in h.refs && h.refs[b] == g.refs[b])
  {
  }

  /** `commit`: what it leaves and whether it failed. */
  function CommitPaths(g: Git, ps: set<Path>, mode: Mode, hooks: bool): (Git, Option<Why>)
    requires g.Valid() && g.Tip().Some?
  {
    if g.busy then (g, Some(InProgress))
    else
      var (h, why) := Switched(g, mode);
      SwitchKeeps(g, mode);
      if why.Some? then (h, why)
      else if !AddMatches(h, ps) then (h, Some(AddFailed))
      else
        var a := Added(h, ps);
        if CommitAccepted(a, ps, hooks) then (CommittedOnly(a, ps), None) else (ResetPaths(a, ps), Some(Rejected))
  }

  function Finished(g: Git, start: Start, mode: Mode, hooks: bool): (Git, Outcome)
    requires g.Valid() && g.Tip().Some?
  {
    var agent, owners := AgentPaths(g, start), OwnersPaths(g, start);
    if agent == {} then (g, if owners == {} then Silent else NothingCommitted(owners))
    else
      var (h, why) := CommitPaths(g, agent, mode, hooks);
      (h, if why.None? then Committed(|agent|, owners) else NotCommitted(why.value, |agent|, owners))
  }

  // ---------------------------------------------------------------- undo

  datatype UndoOutcome = Undone(paths: nat) | NoCommit | NotAgents | NoParent | ChangedSince

  function ChangedPaths(from: Tree, to: Tree): (ps: set<Path>)
    ensures forall p :: p in ps <==> At(from, p) != At(to, p)
  {
    set p | p in from.Keys + to.Keys && At(from, p) != At(to, p)
  }

  /** The branch moves back, changed paths come back from the parent, added ones go. */
  function TakenBack(g: Git, parent: nat): Git
    requires g.Valid() && g.Tip().Some? && parent < |g.commits|
  {
    var tree := g.commits[parent].tree;
    var ps := ChangedPaths(tree, g.HeadTree());
    var restored := set p | p in ps && p in tree;
    var added := set p | p in ps && p !in tree;
    var moved := g.Moved(parent);
    var back := moved.(index := Overlay(moved.index, tree, restored), work := Overlay(moved.work, tree, restored));
    back.(index := back.index - added, work := back.work - added)
  }

  function UndoLast(g: Git): (Git, UndoOutcome)
    requires g.Valid()
  {
    if g.Tip().None? then (g, NoCommit)
    else
      var c := g.commits[g.Tip().value];
      if !c.tagged then (g, NotAgents)
      else if c.parent.None? then (g, NoParent)
      else
        var ps := ChangedPaths(g.commits[c.parent.value].tree, c.tree);
        if exists p :: p in ps && g.IsDirty(p) then (g, ChangedSince) else (TakenBack(g, c.parent.value), Undone(|ps|))
  }

  class Workspace {
    var commits: seq<Revision>
    var refs: map<Branch, nat>
    var head: Head
    var index: Tree
    var work: Tree
    var busy: bool
    var start: Option<Start>

    function Held(): Git
      reads this
    {
      Git(commits, refs, head, index, work, busy)
    }

    constructor (g: Git)
      ensures Held() == g && start == None
    {
      commits, refs, head, index, work, busy := g.commits, g.refs, g.head, g.index, g.work, g.busy;
      start := None;
    }

    /** A run starts. */
    method Begin()
      requires Held().Valid()
      modifies this`start
      ensures start == Snapshot(Held())
    {
      if Held().Tip().None? {
        start := None;
      } else {
        var dirty := Held().Dirty();
        start := Some(map p | p in dirty :: At(work, p));
      }
    }

    /** A run ends: its snapshot is used up. */
    method End(mode: Mode, hooks: bool) returns (out: Outcome)
      requires Held().Valid() && (start.Some? ==> Held().Tip().Some?)
      modifies this
      ensures start == None
      ensures old(start).None? ==> Held() == old(Held()) && out == Silent
      ensures old(start).Some? ==> (Held(), out) == Finished(old(Held()), old(start).value, mode, hooks)
    {
      if start.None? {
        return Silent;
      }
      var began := start.value;
      start := None;
      out := Finish(began, mode, hooks);
    }

    method Finish(began: Start, mode: Mode, hooks: bool) returns (out: Outcome)
      requires Held().Valid() && Held().Tip().Some?
      modifies this
      ensures start == old(start) && (Held(), out) == Finished(old(Held()), began, mode, hooks)
    {
      hide CommitPaths;
      var now := Held().Dirty();
      var agent := set p | p in now && p !in began;
      var owners := set p | p in began && At(work, p) != began[p];
      assert agent == AgentPaths(Held(), began) && owners == OwnersPaths(Held(), began);
      hide AgentPaths, OwnersPaths, At, Overlay;
      if agent == {} {
        return if owners == {} then Silent else NothingCommitted(owners);
      }
      var why := Commit(agent, mode, hooks);
      out := if why.None? then Committed(|agent|, owners) else NotCommitted(why.value, |agent|, owners);
    }

    method Commit(ps: set<Path>, mode: Mode, hooks: bool) returns (why: Option<Why>)
      requires Held().Valid() && Held().Tip().Some?
      modifies this
      ensures start == old(start) && (Held(), why) == CommitPaths(old(Held()), ps, mode, hooks)
    {
      if busy {
        return Some(InProgress);
      }
      SwitchKeeps(Held(), mode);
      why := SwitchTo(mode);
      if why.Some? {
        return;
      }
      hide Switched, Overlay, CommitAccepted;
      why := AddAndCommit(ps, hooks);
    }

    method SwitchTo(mode: Mode) returns (why: Option<Why>)
      requires Held().Valid() && Held().Tip().Some?
      modifies this
      ensures start == old(start) && (Held(), why) == Switched(old(Held()), mode)
    {
      if mode == Current {
        return if head.Detached? then Some(DetachedHead) else None;
      }
      if head.On? && head.branch.Ours? {
        return None;
      }
      var tip := Held().Tip().value;
      var n := 0;
      while n < 100 && Ours(n) in refs
        invariant 0 <= n <= 100 && FreeName(refs, n) == FreeName(refs, 0)
      {
        n := n + 1;
      }
      if n == 100 {
        return Some(NoFreeName);
      }
      refs, head := refs[Ours(n) := tip], On(Ours(n));
      return None;
    }

    /** `git add -A`, `git commit --only`, and `git reset` if that fails. */
    method AddAndCommit(ps: set<Path>, hooks: bool) returns (why: Option<Why>)
      requires Held().Valid()
      modifies this
      ensures start == old(start) && Added(old(Held()), ps).Valid()
      ensures var g, a := old(Held()), Added(old(Held()), ps);
        (Held(), why) ==
          if !AddMatches(g, ps) then (g, Some(AddFailed))
          else if CommitAccepted(a, ps, hooks) then (CommittedOnly(a, ps), None)
          else (ResetPaths(a, ps), Some(Rejected))
    {
      AddedKeeps(Held(), ps);
      hide Overlay, CommitAccepted;
      if !AddMatches(Held(), ps) {
        return Some(AddFailed);
      }
      index := Overlay(index, work, ps);
      if !CommitAccepted(Held(), ps, hooks) {
        index := Overlay(index, Held().HeadTree(), ps);
        return Some(Rejected);
      }
      var tree, c := Overlay(Held().HeadTree(), work, ps), |commits|;
      var parent := Held().Tip();
      commits := commits + [Revision(tree, parent, true)];
      index := Overlay(index, work, ps);
      UpdateRef(c);
      return None;
    }

    method UpdateRef(c: nat)
      modifies this`refs, this`head
      ensures Held() == old(Held()).Moved(c)
    {
      if head.On? {
        refs := refs[head.branch := c];
      } else {
        head := Detached(c);
      }
    }

    method Undo() returns (out: UndoOutcome)
      requires Held().Valid()
      modifies this
      ensures start == old(start) && (Held(), out) == UndoLast(old(Held()))
    {
      hide TakenBack, ChangedPaths;
      var tip := Held().Tip();
      if tip.None? {
        return NoCommit;
      }
      var c := commits[tip.value];
      if !c.tagged {
        return NotAgents;
      }
      if c.parent.None? {
        return NoParent;
      }
      var all := ChangedPaths(commits[c.parent.value].tree, c.tree);
      var dirty := Held().Dirty();
      SomeChanged(Held(), all, dirty);
      if all * dirty != {} {
        return ChangedSince;
      }
      TakeBack(c.parent.value, all);
      return Undone(|all|);
    }

    method TakeBack(parent: nat, all: set<Path>)
      requires Held().Valid() && Held().Tip().Some? && parent < |commits|
      requires all == ChangedPaths(commits[parent].tree, Held().HeadTree())
      modifies this
      ensures start == old(start) && Held() == TakenBack(old(Held()), parent)
    {
      hide Overlay, ChangedPaths;
      var tree := commits[parent].tree;
      var restored := set p | p in all && p in tree;
      var added := set p | p in all && p !in tree;
      UpdateRef(parent);
      index, work := Overlay(index, tree, restored), Overlay(work, tree, restored);
      index, work := index - added, work - added;
    }
  }

  lemma SomeChanged(g: Git, ps: set<Path>, dirty: set<Path>)
    requires g.Valid() && dirty == g.Dirty()
    ensures ps * dirty != {} <==> exists p :: p in ps && g.IsDirty(p)
  {
    if p :| p in ps && g.IsDirty(p) {
      assert p in ps * dirty;
    }
    if ps * dirty != {} {
      var p :| p in ps * dirty;
      assert p in ps && g.IsDirty(p);
    }
  }

  // ---------------------------------------------------------------- what they mean

  /** `git add`, then `git commit --only`. */
  lemma CommittedFacts(g: Git, ps: set<Path>, p: Path)
    requires g.Valid()
    ensures Added(g, ps).Valid() && Added(g, ps).Tip() == g.Tip() && Added(g, ps).HeadTree() == g.HeadTree()
    ensures var h := CommittedOnly(Added(g, ps), ps);
      && h.Valid() && h.Tip() == Some(|g.commits|) && h.commits == g.commits + [Revision(h.HeadTree(), g.Tip(), true)]
      && At(h.HeadTree(), p) == (if p in ps then At(g.work, p) else At(g.HeadTree(), p))
      && At(h.index, p) == (if p in ps then At(g.work, p) else At(g.index, p))
      && h.work == g.work
      && (forall b :: b in g.refs && g.head != On(b) ==> b in h.refs && h.refs[b] == g.refs[b])
  {
  }

  lemma AddedKeeps(g: Git, ps: set<Path>)
    requires g.Valid()
    ensures Added(g, ps).Valid()
  {
  }

  /** How `commit` ends. */
  ghost predicate Ends(g: Git, s: Git, ps: set<Path>, h: Git, why: Option<Why>)
    requires s.Valid() && Added(s, ps).Valid()
  {
    && (why.None? ==> h == CommittedOnly(Added(s, ps), ps))
    && (why == Some(Rejected) ==> h == ResetPaths(Added(s, ps), ps))
    && (why.Some? && why != Some(Rejected) ==> h == g || h == s)
  }

  lemma CommitEnds(g: Git, ps: set<Path>, mode: Mode, hooks: bool)
    requires g.Valid() && g.Tip().Some?
    ensures Switched(g, mode).0.Valid() && Added(Switched(g, mode).0, ps).Valid()
    ensures Ends(g, Switched(g, mode).0, ps, CommitPaths(g, ps, mode, hooks).0, CommitPaths(g, ps, mode, hooks).1)
  {
    SwitchKeeps(g, mode);
    SwitchedWhy(g, mode);
    AddedKeeps(Switched(g, mode).0, ps);
    hide Switched, Added, CommittedOnly, ResetPaths, AddMatches, CommitAccepted;
  }

  lemma SwitchedWhy(g: Git, mode: Mode)
    requires g.Tip().Some?
    ensures Switched(g, mode).1 != Some(Rejected)
  {
  }

  lemma FinishedCases(g: Git, start: Start, mode: Mode, hooks: bool)
    requires g.Valid() && g.Tip().Some?
    ensures Switched(g, mode).0.Valid() && Added(Switched(g, mode).0, AgentPaths(g, start)).Valid()
    ensures var (h, out) := Finished(g, start, mode, hooks);
      var s, agent := Switched(g, mode).0, AgentPaths(g, start);
      if out.Committed? || out.NotCommitted? then Ends(g, s, agent, h, if out.Committed? then None else Some(out.why))
      else h == g
  {
    hide CommitPaths, Switched, Added, AgentPaths, OwnersPaths, Ends;
    CommitEnds(g, AgentPaths(g, start), mode, hooks);
  }

  /** A commit takes exactly the run's paths from the work tree, leaves the index and the work tree of all
    others alone, and moves no other branch. */
  lemma CommitIsTheRuns(g: Git, start: Start, mode: Mode, hooks: bool, p: Path)
    requires g.Valid() && g.Tip().Some? && Finished(g, start, mode, hooks).1.Committed?
    ensures var h, agent := Finished(g, start, mode, hooks).0, AgentPaths(g, start);
      && h.Valid() && h.Tip() == Some(|g.commits|) && h.commits == g.commits + [Revision(h.HeadTree(), g.Tip(), true)]
      && At(h.HeadTree(), p) == (if p in agent then At(g.work, p) else At(g.HeadTree(), p))
      && At(h.index, p) == (if p in agent then At(g.work, p) else At(g.index, p))
      && h.work == g.work
      && (p in agent <==> g.IsDirty(p) && p !in start)
      && (forall b :: b in g.refs && g.head != On(b) ==> b in h.refs && h.refs[b] == g.refs[b])
  {
    hide Finished, Switched, Added, CommittedOnly, Overlay;
    FinishedCases(g, start, mode, hooks);
    SwitchKeeps(g, mode);
    SwitchedAway(g, mode);
    CommittedFacts(Switched(g, mode).0, AgentPaths(g, start), p);
  }

  /** Where a commit goes in new-branch mode: HEAD stays on one of our branches, or ends on the first of the hundred
    names that was free, with every branch there was, HEAD's own too, where it was. */
  lemma NewModeBranch(g: Git, start: Start, hooks: bool)
    requires g.Valid() && g.Tip().Some? && Finished(g, start, New, hooks).1.Committed?
    ensures var h := Finished(g, start, New, hooks).0;
      && h.head.On? && h.head.branch.Ours? && h.refs.Keys == g.refs.Keys + {h.head.branch}
      && h.head.branch in h.refs && h.refs[h.head.branch] == |g.commits|
      && (forall b :: b in g.refs && b != h.head.branch ==> h.refs[b] == g.refs[b])
      && if g.head.On? && g.head.branch.Ours? then h.head == g.head
         else
           var n := h.head.branch.n;
           && n < 100 && Ours(n) !in g.refs && (forall k :: 0 <= k < n ==> Ours(k) in g.refs)
           && forall b :: b in g.refs ==> b in h.refs && h.refs[b] == g.refs[b]
  {
    hide Finished, Added, CommittedOnly, AgentPaths, Switched;
    FinishedCases(g, start, New, hooks);
    CommittedOnBranch(g, start, New, hooks);
    SwitchedIs(g, New);
    SwitchKeeps(g, New);
    MovedTo(Switched(g, New).0, AgentPaths(g, start));
  }

  /** In current-branch mode it is the branch HEAD is on. */
  lemma CurrentModeBranch(g: Git, start: Start, hooks: bool)
    requires g.Valid() && g.Tip().Some? && Finished(g, start, Current, hooks).1.Committed?
    ensures var h := Finished(g, start, Current, hooks).0;
      && g.head.On? && h.head == g.head && h.refs == g.refs[g.head.branch := |g.commits|]
  {
    hide Finished, Added, CommittedOnly, AgentPaths, Switched;
    FinishedCases(g, start, Current, hooks);
    CommittedOnBranch(g, start, Current, hooks);
    SwitchedIs(g, Current);
    MovedTo(Switched(g, Current).0, AgentPaths(g, start));
  }

  lemma CommittedOnBranch(g: Git, start: Start, mode: Mode, hooks: bool)
    requires g.Valid() && g.Tip().Some? && Finished(g, start, mode, hooks).1.Committed?
    ensures Switched(g, mode).1.None?
  {
    hide Switched, AgentPaths, OwnersPaths, AddMatches, Added, CommitAccepted;
  }

  /** `update-ref` after the commit. */
  lemma MovedTo(s: Git, ps: set<Path>)
    requires s.Valid()
    ensures Added(s, ps).Valid()
    ensures var h := CommittedOnly(Added(s, ps), ps);
      match s.head
      case On(b) => h.head == s.head && h.refs == s.refs[b := |s.commits|]
      case Detached(_) => h.head == Detached(|s.commits|) && h.refs == s.refs
  {
  }

  /** Switching. */
  lemma SwitchedIs(g: Git, mode: Mode)
    requires g.Valid() && g.Tip().Some?
    ensures var (h, why) := Switched(g, mode);
      && (mode == Current ==> h == g && why == if g.head.On? then None else Some(DetachedHead))
      && (mode == New && g.head.On? && g.head.branch.Ours? ==> h == g && why == None)
      && (mode == New && !(g.head.On? && g.head.branch.Ours?) && (forall k :: 0 <= k < 100 ==> Ours(k) in g.refs) ==>
            h == g && why == Some(NoFreeName))
      && (mode == New && !(g.head.On? && g.head.branch.Ours?) && !(forall k :: 0 <= k < 100 ==> Ours(k) in g.refs) ==>
            && why == None && h.head.On? && h.head.branch.Ours? && h.head.branch.n < 100 && h.head.branch !in g.refs
            && (forall k :: 0 <= k < h.head.branch.n ==> Ours(k) in g.refs)
            && h == g.(refs := g.refs[h.head.branch := g.Tip().value], head := h.head))
  {
  }

  /** Switching goes to a name that was free. */
  lemma SwitchedAway(g: Git, mode: Mode)
    requires g.Valid() && g.Tip().Some?
    ensures Switched(g, mode).0.head == g.head ||
      (Switched(g, mode).0.head.On? && Switched(g, mode).0.head.branch !in g.refs)
  {
  }

  /** When a run's files are committed, hooks willing: no operation is in progress, there is a branch to commit
    to, each path is still there or was deleted with the index and HEAD both still having it, and something
    differs from HEAD. So a file deleted from the index as well keeps the whole run from being committed. */
  lemma CommittedWhen(g: Git, start: Start, mode: Mode)
    requires g.Valid() && g.Tip().Some?
    ensures var agent := AgentPaths(g, start);
      Finished(g, start, mode, true).1.Committed? <==>
        && !g.busy
        && (mode == Current ==> g.head.On?)
        && (mode == New ==> (g.head.On? && g.head.branch.Ours?) || exists k :: 0 <= k < 100 && Ours(k) !in g.refs)
        && (forall p :: p in agent ==> p in g.work || (p in g.index && p in g.HeadTree()))
        && (exists p :: p in agent && At(g.work, p) != At(g.HeadTree(), p))
  {
    hide AgentPaths, OwnersPaths, CommitPaths, Switched;
    SwitchedIs(g, mode);
    CommitWhen(g, AgentPaths(g, start), mode);
  }

  /** Whose the changed paths are: the run's are those dirty now that weren't at the start, the owner's those dirty at the
    start that aren't as they were; dirty is different from HEAD in the index or from the index in the work tree. */
  lemma WhosePaths(before: Git, g: Git, p: Path)
    requires before.Valid() && g.Valid() && Snapshot(before).Some?
    ensures var start := Snapshot(before).value;
      && (p in start <==> At(before.HeadTree(), p) != At(before.index, p) || At(before.index, p) != At(before.work, p))
      && (p in start ==> start[p] == At(before.work, p))
      && (p in AgentPaths(g, start) <==>
            (At(g.HeadTree(), p) != At(g.index, p) || At(g.index, p) != At(g.work, p)) && p !in start)
      && (p in OwnersPaths(g, start) <==> p in start && At(g.work, p) != At(before.work, p))
  {
  }

  /** How a run's end is reported, and when a commit is refused, the first refusal that applies: an operation in
    progress, no branch, no free name, a path that neither the work tree nor the index has; git's own is last. */
  lemma HowItEnds(g: Git, start: Start, mode: Mode, hooks: bool)
    requires g.Valid() && g.Tip().Some?
    ensures var out, agent, owners := Finished(g, start, mode, hooks).1, AgentPaths(g, start), OwnersPaths(g, start);
      && (agent == {} ==> out == if owners == {} then Silent else NothingCommitted(owners))
      && (agent != {} ==>
            var ours := g.head.On? && g.head.branch.Ours?;
            var taken := forall k :: 0 <= k < 100 ==> Ours(k) in g.refs;
            var missing := exists p :: p in agent && p !in g.index && p !in g.work;
            if g.busy then out == NotCommitted(InProgress, |agent|, owners)
            else if mode == Current && g.head.Detached? then out == NotCommitted(DetachedHead, |agent|, owners)
            else if mode == New && !ours && taken then out == NotCommitted(NoFreeName, |agent|, owners)
            else if missing then out == NotCommitted(AddFailed, |agent|, owners)
            else out == NotCommitted(Rejected, |agent|, owners) || (hooks && out == Committed(|agent|, owners)))
  {
    hide AgentPaths, OwnersPaths, CommitPaths;
    if AgentPaths(g, start) != {} {
      HowCommitEnds(g, AgentPaths(g, start), mode, hooks);
    }
  }

  lemma HowCommitEnds(g: Git, ps: set<Path>, mode: Mode, hooks: bool)
    requires g.Valid() && g.Tip().Some?
    ensures var why := CommitPaths(g, ps, mode, hooks).1;
      var ours := g.head.On? && g.head.branch.Ours?;
      var taken := forall k :: 0 <= k < 100 ==> Ours(k) in g.refs;
      var missing := exists p :: p in ps && p !in g.index && p !in g.work;
      if g.busy then why == Some(InProgress)
      else if mode == Current && g.head.Detached? then why == Some(DetachedHead)
      else if mode == New && !ours && taken then why == Some(NoFreeName)
      else if missing then why == Some(AddFailed)
      else why == Some(Rejected) || (hooks && why == None)
  {
    hide Switched, Added, CommittedOnly, ResetPaths, Overlay;
    SwitchedIs(g, mode);
    SwitchKeeps(g, mode);
    AddedKeeps(Switched(g, mode).0, ps);
  }

  lemma CommitWhen(g: Git, ps: set<Path>, mode: Mode)
    requires g.Valid() && g.Tip().Some?
    ensures CommitPaths(g, ps, mode, true).1.None? <==>
      && !g.busy && Switched(g, mode).1.None?
      && (forall p :: p in ps ==> p in g.work || (p in g.index && p in g.HeadTree()))
      && (exists p :: p in ps && At(g.work, p) != At(g.HeadTree(), p))
  {
    hide Switched, AddMatches, Overlay;
    SwitchKeeps(g, mode);
    MatchedWhen(Switched(g, mode).0, ps);
    DiffersWhen(Switched(g, mode).0, ps);
  }

  lemma MatchedWhen(g: Git, ps: set<Path>)
    requires g.Valid()
    ensures Added(g, ps).Valid()
    ensures AddMatches(g, ps) && (forall p :: p in ps ==> p in g.HeadTree() || p in Added(g, ps).index) <==>
      forall p :: p in ps ==> p in g.work || (p in g.index && p in g.HeadTree())
  {
    forall p | p in ps
      ensures p in Added(g, ps).index <==> p in g.work
    {
      assert At(Added(g, ps).index, p) == At(g.work, p);
    }
  }

  lemma DiffersWhen(g: Git, ps: set<Path>)
    requires g.Valid()
    ensures Overlay(g.HeadTree(), g.work, ps) != g.HeadTree() <==>
      exists p :: p in ps && At(g.work, p) != At(g.HeadTree(), p)
  {
    var tree := Overlay(g.HeadTree(), g.work, ps);
    if !(exists p :: p in ps && At(g.work, p) != At(g.HeadTree(), p)) {
      SameTree(tree, g.HeadTree());
    } else {
      var p :| p in ps && At(g.work, p) != At(g.HeadTree(), p);
      assert At(tree, p) != At(g.HeadTree(), p);
    }
  }

  /** Without a commit nothing moves but the branch HEAD is on; a rejected one leaves the run's paths in the
    index as in HEAD, so as they were found exactly when the run itself staged nothing. */
  lemma RejectedRestores(g: Git, start: Start, mode: Mode, hooks: bool)
    requires g.Valid() && g.Tip().Some? && !Finished(g, start, mode, hooks).1.Committed?
    ensures var (h, out) := Finished(g, start, mode, hooks);
      var agent := AgentPaths(g, start);
      && h.Valid() && h.commits == g.commits && h.Tip() == g.Tip() && h.work == g.work
      && (forall b :: b in g.refs ==> b in h.refs && h.refs[b] == g.refs[b])
      && (forall p :: At(h.index, p) ==
            if out.NotCommitted? && out.why == Rejected && p in agent then At(g.HeadTree(), p) else At(g.index, p))
      && (out.NotCommitted? && out.why == Rejected ==>
            (h.index == g.index <==> forall p :: p in agent ==> At(g.index, p) == At(g.HeadTree(), p)))
  {
    hide Finished, Switched, Added, ResetPaths, CommittedOnly, Overlay, AgentPaths;
    FinishedCases(g, start, mode, hooks);
    SwitchKeeps(g, mode);
    RejectedFacts(Switched(g, mode).0, AgentPaths(g, start));
  }

  lemma RejectedFacts(g: Git, ps: set<Path>)
    requires g.Valid()
    ensures Added(g, ps).Valid()
    ensures var h := ResetPaths(Added(g, ps), ps);
      && h.Valid() && h.commits == g.commits && h.Tip() == g.Tip() && h.work == g.work && h.refs == g.refs
      && (forall p :: At(h.index, p) == if p in ps then At(g.HeadTree(), p) else At(g.index, p))
      && (h.index == g.index <==> forall p :: p in ps ==> At(g.index, p) == At(g.HeadTree(), p))
  {
    var h := ResetPaths(Added(g, ps), ps);
    assert Added(g, ps).HeadTree() == g.HeadTree();
    if forall p :: p in ps ==> At(g.index, p) == At(g.HeadTree(), p) {
      SameTree(h.index, g.index);
    } else {
      var p :| p in ps && At(g.index, p) != At(g.HeadTree(), p);
      assert At(h.index, p) != At(g.index, p);
    }
  }

  /** An undo restores what it said and nothing else, or does nothing. */
  lemma UndoTouchesOnly(g: Git, p: Path)
    requires g.Valid()
    ensures var (h, out) := UndoLast(g);
      if out.Undone? then
        var c := g.commits[g.Tip().value];
        && c.tagged && c.parent.Some? && h.Valid() && h.commits == g.commits && h.Tip() == c.parent
        && (At(h.HeadTree(), p) == At(c.tree, p) ==> At(h.index, p) == At(g.index, p) && At(h.work, p) == At(g.work, p))
        && (At(h.HeadTree(), p) != At(c.tree, p) ==> At(h.index, p) == At(h.work, p) == At(h.HeadTree(), p) && !g.IsDirty(p))
        && (forall b :: b in g.refs && g.head != On(b) ==> b in h.refs && h.refs[b] == g.refs[b])
      else h == g
  {
    if UndoLast(g).1.Undone? {
      var c := g.commits[g.Tip().value];
      TakenBackFacts(g, c.parent.value, p);
      hide TakenBack, ChangedPaths;
    }
  }

  /** When an undo is refused, the first refusal that applies: no commit, not an agent's, no parent, a path of it changed
    since; else it is done. */
  lemma UndoRefusal(g: Git)
    requires g.Valid()
    ensures var out := UndoLast(g).1;
      && (out == NoCommit <==> g.Tip().None?)
      && (g.Tip().Some? ==>
            var c := g.commits[g.Tip().value];
            && (out == NotAgents <==> !c.tagged)
            && (out == NoParent <==> c.tagged && c.parent.None?)
            && (c.tagged && c.parent.Some? ==>
                  (out == ChangedSince <==>
                     exists p :: At(g.commits[c.parent.value].tree, p) != At(c.tree, p)
                       && (At(c.tree, p) != At(g.index, p) || At(g.index, p) != At(g.work, p)))))
  {
    if g.Tip().Some? && g.commits[g.Tip().value].parent.Some? {
      var c := g.commits[g.Tip().value];
      var ps := ChangedPaths(g.commits[c.parent.value].tree, c.tree);
      assert forall p :: p in ps <==> At(g.commits[c.parent.value].tree, p) != At(c.tree, p);
      hide TakenBack, ChangedPaths, At;
    }
  }

  lemma MovedFacts(g: Git, c: nat)
    requires g.Valid() && c < |g.commits|
    ensures var h := g.Moved(c);
      && h.Valid() && h.Tip() == Some(c) && h.HeadTree() == g.commits[c].tree && h.commits == g.commits
      && h.index == g.index && h.work == g.work
      && (forall b :: b in g.refs && g.head != On(b) ==> b in h.refs && h.refs[b] == g.refs[b])
  {
  }

  lemma BackOn(base: Tree, tree: Tree, ps: set<Path>, p: Path)
    ensures var restored, added := set q | q in ps && q in tree, set q | q in ps && q !in tree;
      At(Overlay(base, tree, restored) - added, p) == if p in ps then At(tree, p) else At(base, p)
  {
    var restored := set q | q in ps && q in tree;
    assert At(Overlay(base, tree, restored), p) == if p in restored then At(tree, p) else At(base, p);
  }

  lemma TakenBackFacts(g: Git, parent: nat, p: Path)
    requires g.Valid() && g.Tip().Some? && parent < |g.commits|
    ensures var h, tree := TakenBack(g, parent), g.commits[parent].tree;
      var changed := At(tree, p) != At(g.HeadTree(), p);
      && h.Valid() && h.commits == g.commits && h.Tip() == Some(parent) && h.HeadTree() == tree
      && At(h.index, p) == (if changed then At(tree, p) else At(g.index, p))
      && At(h.work, p) == (if changed then At(tree, p) else At(g.work, p))
      && (forall b :: b in g.refs && g.head != On(b) ==> b in h.refs && h.refs[b] == g.refs[b])
  {
    var tree := g.commits[parent].tree;
    var ps := ChangedPaths(tree, g.HeadTree());
    MovedFacts(g, parent);
    BackOn(g.index, tree, ps, p);
    BackOn(g.work, tree, ps, p);
    hide Overlay, ChangedPaths, At;
  }

  /** Undo right after a commit always succeeds and restores HEAD, and the run's paths in index and work tree
    to what HEAD has; all other paths are as the run left them. */
  lemma UndoRestores(g: Git, start: Start, mode: Mode, hooks: bool, p: Path)
    requires g.Valid() && g.Tip().Some? && Finished(g, start, mode, hooks).1.Committed?
    ensures var h, agent := Finished(g, start, mode, hooks).0, AgentPaths(g, start);
      && h.Valid()
      && var (u, out) := UndoLast(h);
      && out.Undone? && u.Valid() && u.Tip() == g.Tip() && u.HeadTree() == g.HeadTree()
      && At(u.work, p) == (if p in agent then At(g.HeadTree(), p) else At(g.work, p))
      && At(u.index, p) == (if p in agent then At(g.HeadTree(), p) else At(g.index, p))
  {
    hide Finished, AgentPaths, UndoLast;
    var h, agent := Finished(g, start, mode, hooks).0, AgentPaths(g, start);
    CommitIsTheRuns(g, start, mode, hooks, p);
    forall q: Path
      ensures At(h.HeadTree(), q) == (if q in agent then At(g.work, q) else At(g.HeadTree(), q))
      ensures At(h.index, q) == (if q in agent then At(g.work, q) else At(g.index, q)) && h.work == g.work
    {
      CommitIsTheRuns(g, start, mode, hooks, q);
    }
    assert h.commits[g.Tip().value] == g.commits[g.Tip().value];
    CleanIsUndone(h, g.Tip().value);
    TakenBackFacts(h, g.Tip().value, p);
    hide TakenBack;
  }

  lemma CleanIsUndone(h: Git, parent: nat)
    requires h.Valid() && h.Tip().Some? && h.commits[h.Tip().value].tagged && h.commits[h.Tip().value].parent == Some(parent)
    requires forall q :: At(h.commits[parent].tree, q) != At(h.HeadTree(), q) ==> !h.IsDirty(q)
    ensures UndoLast(h).1.Undone? && UndoLast(h).0 == TakenBack(h, parent)
  {
    hide TakenBack;
  }

  /** And as the run's paths were clean when it started, they are as at the start if HEAD hadn't moved. */
  lemma UndoBringsTheStartBack(before: Git, g: Git, mode: Mode, hooks: bool, p: Path)
    requires before.Valid() && g.Valid() && g.Tip().Some? && Snapshot(before).Some?
    requires before.HeadTree() == g.HeadTree()
    requires Finished(g, Snapshot(before).value, mode, hooks).1.Committed?
    ensures var h := Finished(g, Snapshot(before).value, mode, hooks).0;
      h.Valid() && var u := UndoLast(h).0;
        (p in AgentPaths(g, Snapshot(before).value) ==> At(u.work, p) == At(before.work, p) && At(u.index, p) == At(before.index, p))
  {
    UndoRestores(g, Snapshot(before).value, mode, hooks, p);
    hide Finished, UndoLast;
    assert p !in Snapshot(before).value ==> !before.IsDirty(p);
  }

  // ---------------------------------------------------------------- two runs that show the limits

  const COMMITTED: Tree := map[1 := 10, 2 := 20]

  /** One commit, and the index and work tree a run left. */
  function Repository(index: Tree, work: Tree): Git {
    Git([Revision(COMMITTED, None, false)], map[Theirs(0) := 0], On(Theirs(0)), index, work, false)
  }

  lemma RepositoryIsValid(index: Tree, work: Tree)
    ensures var g := Repository(index, work); g.Valid() && g.Tip() == Some(0) && g.HeadTree() == COMMITTED
  {
  }

  lemma CleanAtStart()
    ensures var g := Repository(COMMITTED, COMMITTED); g.Valid() && Snapshot(g) == Some(map[])
  {
    var g := Repository(COMMITTED, COMMITTED);
    RepositoryIsValid(COMMITTED, COMMITTED);
    assert g.Dirty() == {};
    assert Snapshot(g).value.Keys == {};
  }

  /** From a clean start a run changes file 1 and takes file 2 out of the work tree and the index: with every hook
    willing, nothing is committed. */
  lemma RemovedFileBlocksTheCommit()
    ensures var before, g := Repository(COMMITTED, COMMITTED), Repository(map[1 := 10], map[1 := 11]);
      && before.Valid() && g.Valid() && g.Tip().Some? && Snapshot(before) == Some(map[])
      && Finished(g, Snapshot(before).value, Current, true) == (g, NotCommitted(AddFailed, 2, {}))
  {
    CleanAtStart();
    var g := Repository(map[1 := 10], map[1 := 11]);
    RepositoryIsValid(map[1 := 10], map[1 := 11]);
    assert AgentPaths(g, map[]) == {1, 2} by {
      forall p
        ensures g.IsDirty(p) <==> p == 1 || p == 2
      {
      }
    }
    assert OwnersPaths(g, map[]) == {};
    assert !AddMatches(g, {1, 2}) by {
      assert 2 in {1, 2};
    }
    hide AddMatches, AgentPaths, OwnersPaths;
    assert CommitPaths(g, {1, 2}, Current, true) == (g, Some(AddFailed));
  }

  /** From a clean start a run changes file 1 and stages it; a hook rejects the commit, and what was staged no longer
    is. */
  lemma RejectionUnstages()
    ensures var before, staged := Repository(COMMITTED, COMMITTED), map[1 := 11, 2 := 20];
      var g := Repository(staged, staged);
      && before.Valid() && g.Valid() && g.Tip().Some? && Snapshot(before) == Some(map[])
      && var (h, out) := Finished(g, Snapshot(before).value, Current, false);
      && out == NotCommitted(Rejected, 1, {}) && At(g.index, 1) == Some(11) && At(h.index, 1) == Some(10)
  {
    CleanAtStart();
    var staged := map[1 := 11, 2 := 20];
    var g := Repository(staged, staged);
    RepositoryIsValid(staged, staged);
    assert AgentPaths(g, map[]) == {1} by {
      forall p
        ensures g.IsDirty(p) <==> p == 1
      {
      }
    }
    assert OwnersPaths(g, map[]) == {};
    assert AddMatches(g, {1});
    AddedKeeps(g, {1});
    RejectedFacts(g, {1});
    hide AgentPaths, OwnersPaths, AddMatches, Overlay, Added, ResetPaths;
    assert CommitPaths(g, {1}, Current, false) == (ResetPaths(Added(g, {1}), {1}), Some(Rejected));
  }
}
