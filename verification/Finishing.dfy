/** How runs end: the status rows, the `finishing` counter, and the notice and wake-up a run sends its
  parent, as steps that interleave with everything else. */
module Finishing {
  import opened Inbox
  import opened Wrappers

  datatype Status = Running | Ended | Closed

  /** Where a run is: spawned but not yet a task, running, counted in `finishing`, its end recorded (or not:
    the agent was closed), its notice pushed (and the call it opened, if any), done, or gone without a
    report. */
  datatype Pc =
    | Starting
    | Active
    | Counted
    | Recorded
    | Quiet
    | Noted(call: Option<nat>)
    | Done
    | Gone

  datatype Run = Run(agent: nat, pc: Pc)

  /** One parent's children (`kids`); the parent is a root or not. */
  datatype Config = Config(kids: set<nat>, isRoot: bool)

  datatype Sys = Sys(status: map<nat, Status>, runs: seq<Run>, finishing: nat, box: Box)

  datatype Step =
    | Spawn(agent: nat)
    | Resume(agent: nat)
    | StaleResume(agent: nat)
    | Launch(run: nat)
    | LaunchFails(run: nat)
    | Abort(run: nat)
    | Count(run: nat)
    | Record(run: nat)
    | Note(run: nat)
    | Settle(run: nat)
    | Close(agent: nat)
    | Inside(event: Event)

  ghost predicate At(s: Sys, r: nat, pc: Pc) {
    r < |s.runs| && s.runs[r].pc == pc
  }

  function NoticeOf(k: Config, s: Sys, r: nat): Item
    requires r < |s.runs|
  {
    Item(Notice(r), Some(s.runs[r].agent), k.isRoot)
  }

  /** Every wake-up call made by the end of one of the parent's own runs is over. */
  ghost predicate NoOpenEndCall(b: Box) {
    forall c :: 0 <= c < |b.calls| && b.calls[c].owner.None? ==> b.calls[c].pc.Over?
  }

  /** The box steps the other actors may take: messages, the parent's own runs, and progress of calls. A run of
    the parent returns only after the call its end makes, so the next one begins after that. */
  ghost predicate Outside(b: Box, e: Event) {
    && Enabled(b, e)
    && (e.Push? ==> e.item.origin.Message? && !e.item.wakes && e.item.about.None? && e.owner.None?)
    && (e.Begin? ==> NoOpenEndCall(b))
  }

  ghost predicate CanStep(k: Config, s: Sys, step: Step) {
    match step
    case Spawn(a) => a !in s.status
    case Resume(a) => a in s.status && s.status[a] == Ended
    case StaleResume(a) => a in s.status
    case Launch(r) => At(s, r, Starting)
    case LaunchFails(r) => At(s, r, Starting) && s.runs[r].agent in s.status
    case Abort(r) => At(s, r, Active)
    case Count(r) => At(s, r, Active)
    case Record(r) => At(s, r, Counted) && s.runs[r].agent in s.status
    case Note(r) => At(s, r, Recorded) && Enabled(s.box, Push(NoticeOf(k, s, r), Some(r)))
    case Settle(r) =>
      && r < |s.runs| && s.finishing > 0
      && (match s.runs[r].pc
          case Quiet => true
          case Noted(None) => true
          case Noted(Some(c)) => c < |s.box.calls| && s.box.calls[c].pc.Over?
          case _ => false)
    case Close(a) => a in s.status
    case Inside(e) => Outside(s.box, e)
  }

  function SetRun(runs: seq<Run>, r: nat, pc: Pc): seq<Run>
    requires r < |runs|
  {
    runs[r := runs[r].(pc := pc)]
  }

  ghost function Do(k: Config, s: Sys, step: Step): Sys
    requires CanStep(k, s, step)
  {
    match step
    case Spawn(a) => s.(status := s.status[a := Running], runs := s.runs + [Run(a, Starting)])
    case Resume(a) => s.(status := s.status[a := Running], runs := s.runs + [Run(a, Starting)])
    case StaleResume(a) => s.(status := s.status[a := Running], runs := s.runs + [Run(a, Starting)])
    case Launch(r) => s.(runs := SetRun(s.runs, r, Active))
    case LaunchFails(r) =>
      var a := s.runs[r].agent;
      s.(runs := SetRun(s.runs, r, Gone), status := if s.status[a] == Closed then s.status else s.status[a := Ended])
    case Abort(r) => s.(runs := SetRun(s.runs, r, Gone))
    case Count(r) => s.(runs := SetRun(s.runs, r, Counted), finishing := s.finishing + 1)
    case Record(r) =>
      var a := s.runs[r].agent;
      if s.status[a] == Closed then s.(runs := SetRun(s.runs, r, Quiet))
      else s.(runs := SetRun(s.runs, r, Recorded), status := s.status[a := Ended])
    case Note(r) =>
      if s.runs[r].agent in k.kids then
        var push := Push(NoticeOf(k, s, r), Some(r));
        s.(box := Next(s.box, push),
           runs := SetRun(s.runs, r, Noted(if OpensCall(s.box, push) then Some(|s.box.calls|) else None)))
      else s.(runs := SetRun(s.runs, r, Noted(None)))
    case Settle(r) =>
      s.(runs := SetRun(s.runs, r, if s.runs[r].pc.Quiet? then Gone else Done), finishing := s.finishing - 1)
    case Close(a) => s.(status := s.status[a := Closed])
    case Inside(e) => s.(box := Next(s.box, e))
  }

  const START: Sys := Sys(map[], [], 0, EMPTY)

  // ---------------------------------------------------------------- what every step keeps

  /** A run that `finishing` counts. */
  predicate Counts(pc: Pc) {
    pc.Counted? || pc.Recorded? || pc.Quiet? || pc.Noted?
  }

  /** A run whose end the store has. */
  predicate HasEnded(pc: Pc) {
    pc.Recorded? || pc.Noted? || pc.Done?
  }

  function Counting(runs: seq<Run>): nat {
    if runs == [] then 0 else Counting(runs[..|runs| - 1]) + if Counts(runs[|runs| - 1].pc) then 1 else 0
  }

  lemma {:induction false} CountingUpdate(runs: seq<Run>, r: nat, pc: Pc)
    requires r < |runs|
    ensures Counting(SetRun(runs, r, pc)) + (if Counts(runs[r].pc) then 1 else 0) ==
      Counting(runs) + if Counts(pc) then 1 else 0
  {
    var last := |runs| - 1;
    if r == last {
      assert SetRun(runs, r, pc)[..last] == runs[..last];
    } else {
      assert SetRun(runs, r, pc)[..last] == SetRun(runs[..last], r, pc);
      CountingUpdate(runs[..last], r, pc);
    }
  }

  lemma {:induction false} CountedAtLeast(runs: seq<Run>, r: nat)
    requires r < |runs| && Counts(runs[r].pc)
    ensures Counting(runs) > 0
  {
    if r < |runs| - 1 {
      CountedAtLeast(runs[..|runs| - 1], r);
    }
  }

  lemma AppendRun(runs: seq<Run>, run: Run)
    ensures Counting(runs + [run]) == Counting(runs) + if Counts(run.pc) then 1 else 0
  {
    assert (runs + [run])[..|runs|] == runs;
  }

  /** `finishing` is the number of runs between their count and their settling. */
  ghost predicate CountsRuns(s: Sys) {
    s.finishing == Counting(s.runs)
  }

  ghost predicate HaveRows(s: Sys) {
    forall r :: 0 <= r < |s.runs| ==> s.runs[r].agent in s.status
  }

  /** A wake-up call of a run's report is open only while the run waits for it. */
  ghost predicate CallsOwned(s: Sys) {
    forall c :: 0 <= c < |s.box.calls| && s.box.calls[c].owner.Some? && !s.box.calls[c].pc.Over? ==>
      At(s, s.box.calls[c].owner.value, Noted(Some(c)))
  }

  /** A run's notice is pushed when it is noted, once. */
  ghost predicate NoticesMatch(k: Config, s: Sys) {
    && (forall r :: 0 <= r < |s.runs| && s.runs[r].agent in k.kids && (s.runs[r].pc.Noted? || s.runs[r].pc.Done?) ==>
        NoticeOf(k, s, r) in s.box.pushed)
    && (forall x :: x in s.box.pushed && x.origin.Notice? ==>
        x.origin.run < |s.runs| && (s.runs[x.origin.run].pc.Noted? || s.runs[x.origin.run].pc.Done?))
  }

  /** While the parent runs, no end of an earlier run is still waking it. */
  ghost predicate Serial(s: Sys) {
    s.box.queue.running ==> NoOpenEndCall(s.box)
  }

  ghost predicate Inv(k: Config, s: Sys) {
    CountsRuns(s) && HaveRows(s) && CallsOwned(s) && NoticesMatch(k, s) && Serial(s)
  }

  lemma MoveCounts(runs: seq<Run>, finishing: nat, r: nat, pc: Pc)
    requires r < |runs| && finishing == Counting(runs)
    ensures Counts(runs[r].pc) == Counts(pc) ==> finishing == Counting(SetRun(runs, r, pc))
    ensures !Counts(runs[r].pc) && Counts(pc) ==> finishing + 1 == Counting(SetRun(runs, r, pc))
    ensures Counts(runs[r].pc) && !Counts(pc) ==> finishing - 1 == Counting(SetRun(runs, r, pc))
  {
    CountingUpdate(runs, r, pc);
  }

  /** Which run a step moves on, if any. */
  function Mover(step: Step): Option<nat> {
    match step
    case Launch(r) => Some(r)
    case LaunchFails(r) => Some(r)
    case Abort(r) => Some(r)
    case Count(r) => Some(r)
    case Record(r) => Some(r)
    case Note(r) => Some(r)
    case Settle(r) => Some(r)
    case _ => None
  }

  lemma MoverMoves(k: Config, s: Sys, step: Step)
    requires CanStep(k, s, step) && Mover(step).Some?
    ensures var r, t := Mover(step).value, Do(k, s, step);
      && r < |s.runs| && |t.runs| == |s.runs| && t.runs == SetRun(s.runs, r, t.runs[r].pc)
      && (step.Count? ==> !Counts(s.runs[r].pc) && Counts(t.runs[r].pc) && t.finishing == s.finishing + 1)
      && (step.Settle? ==> Counts(s.runs[r].pc) && !Counts(t.runs[r].pc) && t.finishing == s.finishing - 1)
      && (!step.Count? && !step.Settle? ==> Counts(s.runs[r].pc) == Counts(t.runs[r].pc) && t.finishing == s.finishing)
  {
    hide Next, Enabled, Outside, NoticeOf, OpensCall;
  }

  lemma StepCountsRuns(k: Config, s: Sys, step: Step)
    requires CountsRuns(s) && CanStep(k, s, step)
    ensures CountsRuns(Do(k, s, step))
  {
    hide Next, Enabled, Outside, Counting, Counts;
    if Mover(step).Some? {
      MoverMoves(k, s, step);
      var r := Mover(step).value;
      MoveCounts(s.runs, s.finishing, r, Do(k, s, step).runs[r].pc);
      hide CanStep, Do, Mover;
    } else {
      NewRunCounts(s.runs);
    }
  }

  lemma NewRunCounts(runs: seq<Run>)
    ensures forall a: nat :: Counting(runs + [Run(a, Starting)]) == Counting(runs)
  {
    forall a: nat
      ensures Counting(runs + [Run(a, Starting)]) == Counting(runs)
    {
      AppendRun(runs, Run(a, Starting));
    }
  }

  lemma StepHaveRows(k: Config, s: Sys, step: Step)
    requires HaveRows(s) && CanStep(k, s, step)
    ensures HaveRows(Do(k, s, step))
  {
  }

  lemma InsideKeepsOwned(k: Config, s: Sys, e: Event)
    requires CallsOwned(s) && CanStep(k, s, Inside(e))
    ensures CallsOwned(Do(k, s, Inside(e)))
  {
  }

  lemma NoteKeepsOwned(k: Config, s: Sys, r: nat)
    requires CallsOwned(s) && CanStep(k, s, Note(r))
    ensures CallsOwned(Do(k, s, Note(r)))
  {
  }

  lemma StepCallsOwned(k: Config, s: Sys, step: Step)
    requires CallsOwned(s) && CanStep(k, s, step)
    ensures CallsOwned(Do(k, s, step))
  {
    hide Next, Enabled, Outside, NoticeOf, OpensCall;
    if step.Inside? {
      InsideKeepsOwned(k, s, step.event);
    } else if step.Note? {
      NoteKeepsOwned(k, s, step.run);
    }
  }

  lemma StepNoticesMatch(k: Config, s: Sys, step: Step)
    requires NoticesMatch(k, s) && CanStep(k, s, step)
    ensures NoticesMatch(k, Do(k, s, step))
  {
    var t := Do(k, s, step);
    forall r | 0 <= r < |t.runs| && t.runs[r].agent in k.kids && (t.runs[r].pc.Noted? || t.runs[r].pc.Done?)
      ensures NoticeOf(k, t, r) in t.box.pushed
    {
      assert r < |s.runs|;
    }
  }

  lemma StepSerial(k: Config, s: Sys, step: Step)
    requires Serial(s) && CanStep(k, s, step)
    ensures Serial(Do(k, s, step))
  {
    var t := Do(k, s, step);
    if t.box.queue.running {
      assert forall c :: 0 <= c < |s.box.calls| ==> (s.box.calls[c].pc.Over? ==> t.box.calls[c].pc.Over?);
    }
  }

  lemma StepKeepsInv(k: Config, s: Sys, step: Step)
    requires Inv(k, s) && CanStep(k, s, step)
    ensures Inv(k, Do(k, s, step))
  {
    hide CountsRuns, HaveRows, CallsOwned, NoticesMatch, Serial, Do, CanStep;
    StepSerial(k, s, step);
    StepCountsRuns(k, s, step);
    StepHaveRows(k, s, step);
    StepCallsOwned(k, s, step);
    StepNoticesMatch(k, s, step);
  }

  /** A child's end is recorded unless the child was closed meanwhile, then told: its notice goes to the end of the
    parent's inbox, and wakes an idle root. */
  lemma NoteTells(k: Config, s: Sys, r: nat)
    requires r < |s.runs| && s.runs[r].agent in k.kids
    requires CanStep(k, s, Record(r)) && s.status[s.runs[r].agent] != Closed && CanStep(k, Do(k, s, Record(r)), Note(r))
    ensures var t := Do(k, Do(k, s, Record(r)), Note(r));
      && t.status == s.status[s.runs[r].agent := Ended] && t.finishing == s.finishing
      && t.box.queue.items == s.box.queue.items + [Item(Notice(r), Some(s.runs[r].agent), k.isRoot)]
      && t.box.pushed == s.box.pushed + [Item(Notice(r), Some(s.runs[r].agent), k.isRoot)]
      && t.box.calls == (if k.isRoot && !s.box.queue.running then s.box.calls + [Call(Some(r), Called)] else s.box.calls)
      && t.runs == s.runs[r := Run(s.runs[r].agent, Noted(if k.isRoot && !s.box.queue.running then Some(|s.box.calls|) else None))]
  {
  }

  /** What becomes of an agent's row: it runs once started or resumed, it has ended once a run's end is recorded or its
    run couldn't start, unless it is closed, which only another start undoes. */
  lemma RowsAfter(k: Config, s: Sys, step: Step, a: nat)
    requires CanStep(k, s, step) && HaveRows(s)
    ensures var t := Do(k, s, step);
      var was, now := if a in s.status then Some(s.status[a]) else None, if a in t.status then Some(t.status[a]) else None;
      var ends := (step.Record? || step.LaunchFails?) && s.runs[step.run].agent == a;
      now ==
        if (step.Spawn? || step.Resume? || step.StaleResume?) && step.agent == a then Some(Running)
        else if step.Close? && step.agent == a then Some(Closed)
        else if ends && was != Some(Closed) then Some(Ended)
        else was
  {
    hide Next, Enabled, Outside, NoticeOf, OpensCall;
  }

  /** The end of a closed child's run is not told. */
  lemma ClosedIsNotTold(k: Config, s: Sys, r: nat)
    requires CanStep(k, s, Record(r)) && s.status[s.runs[r].agent] == Closed
    ensures var t := Do(k, s, Record(r));
      && t.box == s.box && t.status == s.status && t.finishing == s.finishing && t.runs == s.runs[r := Run(s.runs[r].agent, Quiet)]
      && !CanStep(k, t, Note(r)) && (s.finishing > 0 ==> CanStep(k, t, Settle(r)) && Do(k, t, Settle(r)).runs[r].pc == Gone)
  {
  }

  /** No step takes back the end of a run, nor gives a run another agent. */
  ghost predicate Later(s: Sys, t: Sys) {
    |s.runs| <= |t.runs| &&
    forall r :: 0 <= r < |s.runs| ==>
      t.runs[r].agent == s.runs[r].agent && (HasEnded(s.runs[r].pc) ==> HasEnded(t.runs[r].pc))
  }

  lemma StepLater(k: Config, s: Sys, step: Step)
    requires CanStep(k, s, step)
    ensures Later(s, Do(k, s, step))
  {
  }

  // ---------------------------------------------------------------- whole runs

  ghost predicate Steps(k: Config, s: Sys, steps: seq<Step>)
    decreases |steps|
  {
    steps == [] || (CanStep(k, s, steps[0]) && Steps(k, Do(k, s, steps[0]), steps[1..]))
  }

  ghost function Then(k: Config, s: Sys, steps: seq<Step>): Sys
    requires Steps(k, s, steps)
    decreases |steps|
  {
    if steps == [] then s else Then(k, Do(k, s, steps[0]), steps[1..])
  }

  lemma {:induction false} TraceKeeps(k: Config, s: Sys, steps: seq<Step>)
    requires Inv(k, s) && Steps(k, s, steps)
    ensures Inv(k, Then(k, s, steps)) && Later(s, Then(k, s, steps))
    decreases |steps|
  {
    hide Inv, CanStep, Do;
    if steps != [] {
      StepKeepsInv(k, s, steps[0]);
      StepLater(k, s, steps[0]);
      TraceKeeps(k, Do(k, s, steps[0]), steps[1..]);
    }
  }

  // ---------------------------------------------------------------- busy

  /** Nobody is between its count and its settling, so no call of a report is open. */
  lemma QuietCounter(k: Config, s: Sys)
    requires Inv(k, s) && s.finishing == 0
    ensures forall r :: 0 <= r < |s.runs| ==> !Counts(s.runs[r].pc)
    ensures forall c :: 0 <= c < |s.box.calls| && s.box.calls[c].owner.Some? ==> s.box.calls[c].pc.Over?
  {
    forall r | 0 <= r < |s.runs|
      ensures !Counts(s.runs[r].pc)
    {
      if Counts(s.runs[r].pc) {
        CountedAtLeast(s.runs, r);
      }
    }
  }

  /** `busy` reads the rows, then the counter. Whatever happened in between, a run whose end the rows showed
    has its notice in the parent's inbox and its wake-up call behind it by the time the counter reads zero. */
  lemma NotBusyMeansToldAll(k: Config, rowsRead: Sys, between: seq<Step>, r: nat)
    requires Inv(k, rowsRead) && Steps(k, rowsRead, between) && Then(k, rowsRead, between).finishing == 0
    requires r < |rowsRead.runs| && HasEnded(rowsRead.runs[r].pc)
    ensures var s := Then(k, rowsRead, between);
      && At(s, r, Done) && s.runs[r].agent == rowsRead.runs[r].agent
      && (s.runs[r].agent in k.kids ==> NoticeOf(k, s, r) in s.box.pushed)
      && (forall c :: 0 <= c < |s.box.calls| && s.box.calls[c].owner == Some(r) ==> s.box.calls[c].pc.Over?)
  {
    TraceKeeps(k, rowsRead, between);
    QuietCounter(k, Then(k, rowsRead, between));
  }

  /** The rows themselves: a run that has not reported belongs to a row that says running, or closed. It needs
    `resume` to act on the row as it is. */
  ghost predicate RowsTell(s: Sys) {
    && (forall r :: 0 <= r < |s.runs| && Unreported(s.runs[r].pc) ==>
        s.runs[r].agent in s.status && !s.status[s.runs[r].agent].Ended?)
    && (forall q, r :: 0 <= q < r < |s.runs| && Unreported(s.runs[q].pc) && Unreported(s.runs[r].pc) ==>
        s.runs[q].agent != s.runs[r].agent)
  }

  predicate Unreported(pc: Pc) {
    pc.Starting? || pc.Active? || pc.Counted?
  }

  /** A resume that acts on an old reading of a row whose agent has a run that hasn't reported. */
  ghost predicate Doubles(s: Sys, step: Step) {
    step.StaleResume? && exists r :: 0 <= r < |s.runs| && Unreported(s.runs[r].pc) && s.runs[r].agent == step.agent
  }

  /** That always makes the rows wrong, and nothing else does. */
  lemma DoublingHides(k: Config, s: Sys, step: Step)
    requires CanStep(k, s, step) && Doubles(s, step)
    ensures !RowsTell(Do(k, s, step))
  {
    var r :| 0 <= r < |s.runs| && Unreported(s.runs[r].pc) && s.runs[r].agent == step.agent;
    var t := Do(k, s, step);
    assert t.runs[r] == s.runs[r] && t.runs[|s.runs|] == Run(step.agent, Starting);
  }

  lemma StepRowsTell(k: Config, s: Sys, step: Step)
    requires HaveRows(s) && RowsTell(s) && CanStep(k, s, step) && !Doubles(s, step)
    ensures RowsTell(Do(k, s, step))
  {
    hide Next, Enabled, Outside, NoticeOf, OpensCall;
    var t := Do(k, s, step);
    assert forall r :: 0 <= r < |s.runs| && Unreported(t.runs[r].pc) ==> Unreported(s.runs[r].pc);
  }

  lemma RowsTellIff(k: Config, s: Sys, step: Step)
    requires HaveRows(s) && RowsTell(s) && CanStep(k, s, step)
    ensures RowsTell(Do(k, s, step)) <==> !Doubles(s, step)
  {
    hide Do, CanStep, RowsTell, Doubles;
    if Doubles(s, step) {
      DoublingHides(k, s, step);
    } else {
      StepRowsTell(k, s, step);
    }
  }

  ghost predicate NeverDoubles(k: Config, s: Sys, steps: seq<Step>)
    requires Steps(k, s, steps)
    decreases |steps|
  {
    steps == [] || (!Doubles(s, steps[0]) && NeverDoubles(k, Do(k, s, steps[0]), steps[1..]))
  }

  lemma {:induction false} TraceRowsTell(k: Config, s: Sys, steps: seq<Step>)
    requires Inv(k, s) && RowsTell(s) && Steps(k, s, steps) && NeverDoubles(k, s, steps)
    ensures RowsTell(Then(k, s, steps))
    decreases |steps|
  {
    hide RowsTell, CanStep, Do, Doubles;
    if steps != [] {
      StepKeepsInv(k, s, steps[0]);
      RowsTellIff(k, s, steps[0]);
      TraceRowsTell(k, Do(k, s, steps[0]), steps[1..]);
    }
  }

  /** From the start on: when `busy` says no, every run there was has told its end, or had none to tell: it was
    closed, or never became a task, or was stopped. */
  lemma NotBusyMeansAllTold(k: Config, history: seq<Step>, between: seq<Step>, r: nat)
    requires Steps(k, START, history) && NeverDoubles(k, START, history)
    requires var rowsRead := Then(k, START, history);
      && (forall a :: a in rowsRead.status ==> rowsRead.status[a] != Running)
      && Steps(k, rowsRead, between) && Then(k, rowsRead, between).finishing == 0
      && r < |rowsRead.runs|
    ensures var rowsRead, s := Then(k, START, history), Then(k, Then(k, START, history), between);
      var run := rowsRead.runs[r];
      && r < |s.runs| && run.agent in rowsRead.status
      && (|| s.runs[r].pc.Done?
          || run.pc.Quiet? || run.pc.Gone?
          || (Unreported(run.pc) && rowsRead.status[run.agent].Closed?))
      && (HasEnded(run.pc) && run.agent in k.kids ==> NoticeOf(k, s, r) in s.box.pushed)
  {
    var rowsRead := Then(k, START, history);
    TraceKeeps(k, START, history);
    TraceRowsTell(k, START, history);
    TraceKeeps(k, rowsRead, between);
    if HasEnded(rowsRead.runs[r].pc) {
      NotBusyMeansToldAll(k, rowsRead, between, r);
    }
  }

  ghost predicate Idles(s: Sys, a: nat) {
    forall r :: 0 <= r < |s.runs| && Unreported(s.runs[r].pc) ==> s.runs[r].agent != a
  }

  predicate Restarts(step: Step, a: nat) {
    (step.Spawn? || step.Resume? || step.StaleResume?) && step.agent == a
  }

  lemma StepIdles(k: Config, s: Sys, step: Step, a: nat)
    requires Idles(s, a) && CanStep(k, s, step) && !Restarts(step, a)
    ensures Idles(Do(k, s, step), a)
  {
    hide Next, Enabled, Outside, NoticeOf, OpensCall;
  }

  /** The agents whose rows have read ended at some moment since they last started. */
  function Readable(s: Sys, step: Step, read: set<nat>): set<nat> {
    (set a | a in read && !Restarts(step, a)) + set a | a in s.status && s.status[a].Ended?
  }

  /** A caller makes one call at a time and only the caller restarts its children, so a resume acts on a reading no
    older than its agent's last start. */
  ghost predicate Serially(k: Config, s: Sys, steps: seq<Step>, read: set<nat>)
    requires Steps(k, s, steps)
    decreases |steps|
  {
    steps == [] ||
    ((steps[0].StaleResume? ==> steps[0].agent in read)
     && var t := Do(k, s, steps[0]); Serially(k, t, steps[1..], Readable(t, steps[0], read)))
  }

  lemma ReadableIdles(k: Config, s: Sys, step: Step, read: set<nat>)
    requires HaveRows(s) && RowsTell(s) && CanStep(k, s, step) && RowsTell(Do(k, s, step))
    requires forall a :: a in read ==> Idles(s, a)
    ensures forall a :: a in Readable(Do(k, s, step), step, read) ==> Idles(Do(k, s, step), a)
  {
    hide Do, CanStep;
    forall a | a in Readable(Do(k, s, step), step, read)
      ensures Idles(Do(k, s, step), a)
    {
      if a in read && !Restarts(step, a) {
        StepIdles(k, s, step, a);
      }
    }
  }

  lemma {:induction false} SerialNeverDoubles(k: Config, s: Sys, steps: seq<Step>, read: set<nat>)
    requires Inv(k, s) && RowsTell(s) && Steps(k, s, steps) && Serially(k, s, steps, read)
    requires forall a :: a in read ==> Idles(s, a)
    ensures NeverDoubles(k, s, steps)
    decreases |steps|
  {
    hide RowsTell, CanStep, Do, Readable;
    if steps != [] {
      assert !Doubles(s, steps[0]);
      hide Doubles, Idles;
      StepKeepsInv(k, s, steps[0]);
      RowsTellIff(k, s, steps[0]);
      ReadableIdles(k, s, steps[0], read);
      SerialNeverDoubles(k, Do(k, s, steps[0]), steps[1..], Readable(Do(k, s, steps[0]), steps[0], read));
    }
  }

  /** So with callers that make one call at a time no resume doubles a run, whatever it overtakes. */
  lemma SerialCallersNeverDouble(k: Config, history: seq<Step>)
    requires Steps(k, START, history) && Serially(k, START, history, {})
    ensures NeverDoubles(k, START, history)
  {
    SerialNeverDoubles(k, START, history, {});
  }

  /** Read the other way round it fails: the counter is read while the run is still running, the rows after it
    recorded its end, and its notice isn't sent. */
  lemma OtherOrderMissesANotice()
    ensures var k := Config({1}, true);
      var before, between := [Spawn(1), Launch(0)], [Count(0), Record(0)];
      && Steps(k, START, before)
      && var counterRead := Then(k, START, before);
      && counterRead.finishing == 0
      && Steps(k, counterRead, between)
      && var rowsRead := Then(k, counterRead, between);
      && rowsRead.status == map[1 := Ended]
      && rowsRead.runs == [Run(1, Recorded)] && rowsRead.box.pushed == []
  {
    var k := Config({1}, true);
    var s1 := Do(k, START, Spawn(1));
    assert s1.runs == [Run(1, Starting)];
    var s2 := Do(k, s1, Launch(0));
    assert s2.runs == [Run(1, Active)];
    TwoSteps(k, START, Spawn(1), Launch(0));
    var s3 := Do(k, s2, Count(0));
    assert s3.runs == [Run(1, Counted)];
    TwoSteps(k, s2, Count(0), Record(0));
  }

  lemma OneStep(k: Config, s: Sys, a: Step)
    requires CanStep(k, s, a)
    ensures Steps(k, s, [a]) && Then(k, s, [a]) == Do(k, s, a)
  {
    assert [a][1..] == [];
    assert Steps(k, Do(k, s, a), []);
  }

  lemma TwoSteps(k: Config, s: Sys, a: Step, b: Step)
    requires CanStep(k, s, a) && CanStep(k, Do(k, s, a), b)
    ensures Steps(k, s, [a, b]) && Then(k, s, [a, b]) == Do(k, Do(k, s, a), b)
  {
    OneStep(k, Do(k, s, a), b);
    assert [a, b][1..] == [b];
  }

  // ---------------------------------------------------------------- wait

  ghost predicate Holds(call: Call, x: Item) {
    call.pc.Holding? && x in call.pc.items
  }

  /** `x` was pushed and will not be seen again: not queued, and no call can put it back. */
  ghost predicate Finished(b: Box, x: Item) {
    x in b.pushed && x !in b.queue.items && forall c :: 0 <= c < |b.calls| ==> !Holds(b.calls[c], x)
  }

  lemma EventKeepsFinished(b: Box, e: Event, x: Item)
    requires Finished(b, x) && Enabled(b, e)
    ensures Finished(Next(b, e), x)
  {
  }

  lemma StepKeepsFinished(k: Config, s: Sys, step: Step, x: Item)
    requires Finished(s.box, x) && CanStep(k, s, step)
    ensures Finished(Do(k, s, step).box, x)
  {
    if step.Inside? {
      EventKeepsFinished(s.box, step.event, x);
    } else if step.Note? && s.runs[step.run].agent in k.kids {
      EventKeepsFinished(s.box, Push(NoticeOf(k, s, step.run), Some(step.run)), x);
    }
  }

  lemma {:induction false} TraceKeepsFinished(k: Config, s: Sys, steps: seq<Step>, x: Item)
    requires Finished(s.box, x) && Steps(k, s, steps)
    ensures Finished(Then(k, s, steps).box, x)
    decreases |steps|
  {
    hide Finished, CanStep, Do;
    if steps != [] {
      StepKeepsFinished(k, s, steps[0], x);
      TraceKeepsFinished(k, Do(k, s, steps[0]), steps[1..], x);
    }
  }

  /** The parent is in one of its own runs in every state of the stretch. */
  ghost predicate InRun(k: Config, s: Sys, steps: seq<Step>)
    requires Steps(k, s, steps)
    decreases |steps|
  {
    s.box.queue.running && (steps != [] ==> InRun(k, Do(k, s, steps[0]), steps[1..]))
  }

  lemma {:induction false} InRunEnds(k: Config, s: Sys, steps: seq<Step>)
    requires Steps(k, s, steps) && InRun(k, s, steps)
    ensures Then(k, s, steps).box.queue.running
    decreases |steps|
  {
    hide CanStep, Do;
    if steps != [] {
      InRunEnds(k, Do(k, s, steps[0]), steps[1..]);
    }
  }

  /** While the parent runs no call is opened. */
  lemma {:induction false} InRunOpensNothing(k: Config, s: Sys, steps: seq<Step>)
    requires Steps(k, s, steps) && InRun(k, s, steps)
    ensures |Then(k, s, steps).box.calls| == |s.box.calls|
    ensures forall c :: 0 <= c < |s.box.calls| && s.box.calls[c].pc.Over? ==> Then(k, s, steps).box.calls[c].pc.Over?
    decreases |steps|
  {
    hide CanStep, Do;
    if steps != [] {
      RunsNow(k, Do(k, s, steps[0]), steps[1..]);
      StepOpensNothing(k, s, steps[0]);
      InRunOpensNothing(k, Do(k, s, steps[0]), steps[1..]);
    }
  }

  lemma StepOpensNothing(k: Config, s: Sys, step: Step)
    requires CanStep(k, s, step) && s.box.queue.running && Do(k, s, step).box.queue.running
    ensures var t := Do(k, s, step); |t.box.calls| == |s.box.calls|
    ensures var t := Do(k, s, step); forall c :: 0 <= c < |s.box.calls| ==>
      s.box.calls[c].pc.Over? ==> t.box.calls[c].pc.Over?
  {
  }

  /** `wait`, called by the parent during its run, in any history: a child's row reads ended, later the counter
    reads zero, then what the inbox says about the child is dropped. No notice of an end that row showed is ever
    queued or handed over again. */
  lemma WaitLeavesNoNotice(k: Config, history: seq<Step>, toCounter: seq<Step>, toForget: seq<Step>, after: seq<Step>, r: nat)
    requires Steps(k, START, history)
    requires var rowRead := Then(k, START, history);
      && r < |rowRead.runs| && HasEnded(rowRead.runs[r].pc) && rowRead.runs[r].agent in k.kids
      && Steps(k, rowRead, toCounter) && InRun(k, rowRead, toCounter)
      && var counterRead := Then(k, rowRead, toCounter);
      && counterRead.finishing == 0
      && Steps(k, counterRead, toForget) && InRun(k, counterRead, toForget)
      && var atForget := Then(k, counterRead, toForget);
      && var forget := Inside(Forget(rowRead.runs[r].agent));
      && CanStep(k, atForget, forget) && Steps(k, Do(k, atForget, forget), after)
    ensures var rowRead := Then(k, START, history);
      var atForget := Then(k, Then(k, rowRead, toCounter), toForget);
      Finished(Then(k, Do(k, atForget, Inside(Forget(rowRead.runs[r].agent))), after).box, NoticeOf(k, rowRead, r))
  {
    hide CanStep, Do, Finished, InRun, Enabled;
    var rowRead := Then(k, START, history);
    var counterRead := Then(k, rowRead, toCounter);
    var atForget := Then(k, counterRead, toForget);
    var x, forget := NoticeOf(k, rowRead, r), Inside(Forget(rowRead.runs[r].agent));
    TraceKeeps(k, START, history);
    TraceKeeps(k, rowRead, toCounter);
    TraceKeeps(k, counterRead, toForget);
    NotBusyMeansToldAll(k, rowRead, toCounter, r);
    InRunEnds(k, counterRead, toForget);
    InRunEnds(k, rowRead, toCounter);
    NoCallOpen(k, counterRead, toForget);
    PushedStays(k, counterRead, toForget, x);
    ForgetFinishes(k, atForget, rowRead.runs[r].agent, x);
    TraceKeepsFinished(k, Do(k, atForget, forget), after, x);
  }

  /** So while the parent runs on from a zero counter no call of either kind is open. */
  lemma NoCallOpen(k: Config, s: Sys, steps: seq<Step>)
    requires Inv(k, s) && s.finishing == 0 && Steps(k, s, steps) && InRun(k, s, steps)
    ensures var b := Then(k, s, steps).box; forall c :: 0 <= c < |b.calls| ==> b.calls[c].pc.Over?
  {
    hide Steps, InRun, Then;
    QuietCounter(k, s);
    RunsNow(k, s, steps);
    InRunOpensNothing(k, s, steps);
    assert forall c :: 0 <= c < |s.box.calls| ==> s.box.calls[c].pc.Over?;
  }

  lemma RunsNow(k: Config, s: Sys, steps: seq<Step>)
    requires Steps(k, s, steps) && InRun(k, s, steps)
    ensures s.box.queue.running
  {
  }

  lemma ForgetFinishes(k: Config, s: Sys, child: nat, x: Item)
    requires x in s.box.pushed && x.about == Some(child) && forall c :: 0 <= c < |s.box.calls| ==> s.box.calls[c].pc.Over?
    ensures CanStep(k, s, Inside(Forget(child))) && Finished(Do(k, s, Inside(Forget(child))).box, x)
  {
  }

  lemma {:induction false} PushedStays(k: Config, s: Sys, steps: seq<Step>, x: Item)
    requires Steps(k, s, steps) && x in s.box.pushed
    ensures x in Then(k, s, steps).box.pushed
    decreases |steps|
  {
    if steps != [] {
      PushedStays(k, Do(k, s, steps[0]), steps[1..], x);
    }
  }

  /** What dropping needs, whoever does it: a dropped notice comes back in some continuation if and only if a
    wake-up call was holding it. */
  lemma NoticeComesBackIffHeld(k: Config, s: Sys, child: nat, x: Item)
    requires x in s.box.pushed && x.about == Some(child)
    ensures var t := Do(k, s, Inside(Forget(child)));
      (exists more :: Steps(k, t, more) && x in Then(k, t, more).box.queue.items)
      <==> exists c :: 0 <= c < |s.box.calls| && Holds(s.box.calls[c], x)
  {
    var t := Do(k, s, Inside(Forget(child)));
    if c :| 0 <= c < |s.box.calls| && Holds(s.box.calls[c], x) {
      var step := Inside(Woke(c, false));
      OneStep(k, t, step);
      var u := Do(k, t, step);
      assert u.box.queue.items == t.box.calls[c].pc.items + t.box.queue.items;
      var more := [step];
      assert Steps(k, t, more) && x in Then(k, t, more).box.queue.items;
    } else {
      assert Finished(t.box, x);
      forall more | Steps(k, t, more)
        ensures x !in Then(k, t, more).box.queue.items
      {
        TraceKeepsFinished(k, t, more, x);
      }
    }
  }

  // ---------------------------------------------------------------- closing an idle agent, step by step

  /** A child ends while its parent is idle, and the wake-up call of its report takes the notice; the child is
    closed, so what the inbox says about it is dropped; the wake-up is refused. */
  function CloseStep(i: nat): Step {
    if i == 0 then Spawn(1)
    else if i == 1 then Launch(0)
    else if i == 2 then Count(0)
    else if i == 3 then Record(0)
    else if i == 4 then Note(0)
    else if i == 5 then Inside(TryTake(0))
    else if i == 6 then Close(1)
    else if i == 7 then Inside(Forget(1))
    else Inside(Woke(0, false))
  }

  function CloseState(i: nat): Sys {
    var x := Item(Notice(0), Some(1), true);
    var status := if i < 1 then map[] else map[1 := if i < 4 then Running else if i < 7 then Ended else Closed];
    var runs := if i < 1 then [] else
      [Run(1, if i == 1 then Starting else if i == 2 then Active else if i == 3 then Counted
              else if i == 4 then Recorded else Noted(Some(0)))];
    var items := if i < 5 || (6 <= i < 9) then [] else [x];
    var calls := if i < 5 then [] else
      [Call(Some(0), if i == 5 then Called else if i < 9 then Holding([x]) else Over)];
    Sys(status, runs, if 3 <= i then 1 else 0,
        Box(Queue(items, false), calls, if i < 5 then [] else [x], [], [], [], if i < 9 then {} else {x}))
  }

  lemma CloseBegins(i: nat)
    requires i < 4
    ensures var k := Config({1}, true);
      CanStep(k, CloseState(i), CloseStep(i)) && Do(k, CloseState(i), CloseStep(i)) == CloseState(i + 1)
  {
    var k, t, u := Config({1}, true), CloseState(i), CloseState(i + 1);
    assert CanStep(k, t, CloseStep(i));
    assert Do(k, t, CloseStep(i)).runs == u.runs;
  }

  lemma CloseEnds(i: nat)
    requires 4 <= i < 9
    ensures var k := Config({1}, true);
      CanStep(k, CloseState(i), CloseStep(i)) && Do(k, CloseState(i), CloseStep(i)) == CloseState(i + 1)
  {
    assert Keep([], 1) == [] && Dropped([], 1) == [];
    var k, t, u := Config({1}, true), CloseState(i), CloseState(i + 1);
    assert CanStep(k, t, CloseStep(i));
    var d := Do(k, t, CloseStep(i));
    assert d.runs == u.runs && d.box.calls == u.box.calls && d.box.queue == u.box.queue;
  }

  function CloseFrom(i: nat): seq<Step>
    requires i <= 9
    decreases 9 - i
  {
    if i == 9 then [] else [CloseStep(i)] + CloseFrom(i + 1)
  }

  lemma {:induction false} CloseRuns(i: nat)
    requires i <= 9
    ensures var k := Config({1}, true); Steps(k, CloseState(i), CloseFrom(i)) && Then(k, CloseState(i), CloseFrom(i)) == CloseState(9)
    decreases 9 - i
  {
    hide CloseState, CloseStep, CanStep, Do;
    if i < 9 {
      if i < 4 {
        CloseBegins(i);
      } else {
        CloseEnds(i);
      }
      CloseRuns(i + 1);
      Prepend(Config({1}, true), CloseState(i), CloseStep(i), CloseFrom(i + 1));
    }
  }

  lemma Prepend(k: Config, s: Sys, a: Step, rest: seq<Step>)
    requires CanStep(k, s, a) && Steps(k, Do(k, s, a), rest)
    ensures Steps(k, s, [a] + rest) && Then(k, s, [a] + rest) == Then(k, Do(k, s, a), rest)
  {
    assert ([a] + rest)[1..] == rest;
  }

  /** Closing, unlike waiting, can meet a call that holds the notice: here it is queued again for a child that is
    closed. */
  lemma ClosedNoticeComesBack()
    ensures var k := Config({1}, true);
      && Steps(k, START, CloseFrom(0))
      && var s := Then(k, START, CloseFrom(0));
      && s.status == map[1 := Closed] && s.box.queue.items == [Item(Notice(0), Some(1), true)]
      && CloseStep(7) == Inside(Forget(1))
  {
    hide CloseState, CloseStep, CanStep, Do, CloseFrom;
    CloseFacts();
    CloseRuns(0);
  }

  lemma CloseFacts()
    ensures CloseState(0) == START && CloseStep(7) == Inside(Forget(1))
    ensures CloseState(9).status == map[1 := Closed]
    ensures CloseState(9).box.queue.items == [Item(Notice(0), Some(1), true)]
  {
  }
}
