# Verified models of ferrule's schedulers and state machines

ferrule runs agents: a graph of nodes on a schedule, agents that start agents, a task list they share, a relay
that keeps messages for them, and housekeeping around all of it. This project models the logic of those parts and
proves what each is for, over every input, run and interleaving of the model. `dafny verify dfyconfig.toml` checks
all of it.

| file | what it models |
|---|---|
| `Plan.dfy` | how a graph file's edges are split into feedforward and feedback edges |
| `Scheduler.dfy`, `GraphRun.dfy` | the scheduling loop as functions over its state; legality, termination, quiescence, exit 0 |
| `Runner.dfy` | the same loop in place, over arrays, proved equal to those functions |
| `GraphOnce.dfy` | graphs without feedback: the least-fixpoint characterisation |
| `GraphSeen.dfy` | exactly which nodes end on old input, and when an edge from a node to itself re-fires |
| `GraphStale.dfy` | two concrete runs that end on old input |
| `GraphOrder.dfy`, `GraphLaws.dfy` | the order in which a batch finishes; what is picked, fires and ran, by edge condition, verdict and exit code |
| `Inbox.dfy` | an agent's inbox and the wake-up calls it causes |
| `InboxOrder.dfy` | the order in which an agent gets what was pushed to it |
| `Finishing.dfy` | the end of a run, the `finishing` counter, `busy` and `wait`, as interleaved steps |
| `Agents.dfy` | the agents table, the limits, `spawn` and `resume` with its row read outside the lock |
| `Supervisor.dfy` | the table in place: spawning, resuming, lineage, the order in which a tree closes and the claims it frees |
| `Board.dfy`, `Shared.dfy` | the task list, claims, authority by lineage, the board read by pages |
| `Slot.dfy`, `Mailbox.dfy`, `MailboxClient.dfy` | the relay's two durable objects, and a client that acknowledges |
| `Fork.dfy` | the end of a conversation a forked child starts from |
| `Housekeeping.dfy` | pruning by age, then by size |
| `AutoCommit.dfy` | committing a run's files and undoing it, over an abstract git |

Classes stand where the program updates objects in place; each method is proved against a function of the old
state, and the lemmas are about those functions. Verdicts of nodes, failing removals and hooks, and budgets are
parameters.

## What the code does that its words do not say

- A check or approval never re-runs through an edge to itself, as the freshness test of `graph.rs` is strict and
  such an edge fires at the epoch its node was scheduled at (`GraphRun.InlineSelfLoopIsDead`,
  `GraphStale.SelfRetryNeverHappens`). An agent or a select does exactly when another node finished between its
  start and its end (`GraphSeen.SelfEdgeRefiresIff`).
- Two agents sent back in one batch both render their prompts before either returns, so the second can end on the
  first one's old outcome with nothing left to run (`GraphStale.EditorEndsStale`). `GraphSeen.StaleIff` says exactly
  when that is.
- `resume` reads the row before it takes the lock. A resume that overtakes a close runs a closed agent again and
  can take a tree over its limit of open agents (`Agents.StaleReadReopens`); `Agents.ReopensIff` and
  `Agents.OverLimitIff` say exactly which step does. The depth and the running-children limits hold all the same
  (`Agents.LimitsHold`). Reading under the lock would restore the open-agents limit (`Agents.LockedReadKeepsLimit`),
  but not make closed final, as closing takes no lock (`Agents.CloseIsOverwritten`).
- Such a resume would mislead `busy` only by starting a second run beside one that has not reported
  (`Finishing.RowsTellIff`), which callers that make one call at a time cannot do
  (`Finishing.SerialCallersNeverDouble`).
- A notice that closing an agent drops can come back: a wake-up call of an idle root may be holding it, and puts it
  back if it is refused (`Finishing.ClosedNoticeComesBack`); that is exactly when
  (`Finishing.NoticeComesBackIffHeld`). It cannot happen to `wait`, which runs while its caller does.
- What a refused wake-up call puts back can land before older items: two calls of an idle root that each took a
  notice and are both refused leave the notices in reverse (`InboxOrder.RefusedTwiceJumps`). Nothing else disturbs
  the order of an inbox (`InboxOrder.InLineIff`), and a call that was alone never does (`InboxOrder.AloneNeverJumps`).
- A put reads its body between its check and its write. If another put writes or a take opens the slot meanwhile,
  more than one put of an opening is told it stored, or a put of an earlier one (`Slot.OverlappingPuts`), or a late
  write ends the new window (`Slot.LateWriteCloses`), or whether the alarm fired decides if a read slot is read again
  (`Slot.AlarmForgetsUse`). `Slot.OncePerOpeningIff` and `Slot.AlarmsMatterIff` say exactly when.
- A run that deletes a file from both the work tree and the index gets none of its files committed, since
  `git add` refuses the path (`AutoCommit.CommittedWhen`, `AutoCommit.RemovedFileBlocksTheCommit`). A rejected commit
  puts the run's paths in the index back to HEAD, which is how the run left them only if it staged nothing
  (`AutoCommit.RejectedRestores`, `AutoCommit.RejectionUnstages`).

## Model

| member | source | states |
|---|---|---|
| Plan.Reaches | crates/ferrule-cli/src/graph.rs:281-298 | the depth-first search ends and answers yes exactly when a path exists |
| Plan.MarkFeedback | crates/ferrule-cli/src/graph.rs:239-249 | an edge is marked feedback exactly when its target reaches its source through the forward edges before it |
| Plan.ForwardIsAcyclic | crates/ferrule-cli/src/graph.rs:239-249 | removing the feedback edges leaves no cycle |
| Plan.FeedbackIffClosesCycle | crates/ferrule-cli/src/graph.rs:239-249 | an edge is feedback if and only if its target reaches its source through all the forward edges together: each closes a cycle, none needlessly |
| Plan.Classify | crates/ferrule-cli/src/graph.rs:239-258 | the only refusals are of an empty graph and of one without a start |
| Plan.NoStartIsUnreachable | crates/ferrule-cli/src/graph.rs:250-258 | the "no start node" refusal cannot happen |
| Plan.StartAndTerminalExist | crates/ferrule-cli/src/graph.rs:1138-1141 | a start node exists and the terminal set `finish` reads is never empty |
| Runner.GraphRunner.PickBatch | crates/ferrule-cli/src/graph.rs:922-954 | the filter over the arrays picks exactly the runnable nodes, ascending |
| Runner.GraphRunner.Fire | crates/ferrule-cli/src/graph.rs:1069-1082 | a pass edge out of the node gets the new epoch on a pass, a fail edge on a failure, an always edge always; no other edge changes |
| Runner.GraphRunner.Render | crates/ferrule-cli/src/graph.rs:1085-1102 | the outcomes shown to a node are the latest of its direct predecessors, in edge order |
| Runner.GraphRunner.RunBatch | crates/ferrule-cli/src/graph.rs:962-1057 | starting, launching, joining and firing over the arrays amount to one batch of the specification |
| Runner.GraphRunner.Execute | crates/ferrule-cli/src/graph.rs:915-1058 | the loop ends, in the state the recursive specification ends in |
| Runner.GraphRunner.Finish | crates/ferrule-cli/src/graph.rs:1131-1148 | exit 0 exactly when the named node, or without one every node with no forward edge out, passed; else exit 2 |
| Runner.RunGraph | crates/ferrule-cli/src/graph.rs:906-1066 | a whole run exits 0 exactly when in the specified final state the named node, or without one every node with no forward edge out, passed; else 2 |
| Runner.PartAt | crates/ferrule-cli/src/graph.rs:1085-1102 | what a prompt shows of an edge's source comes after what it shows of the sources of earlier edges |
| Runner.PartsCount | crates/ferrule-cli/src/graph.rs:1085-1102 | and it shows as many outcomes as there are edges into the node whose source came back |
| GraphLaws.PickedIff | crates/ferrule-cli/src/graph.rs:922-954 | a node is picked exactly when it has attempts left (three by default, at least one), every pass gate's source passed, every fail gate's failed and every always gate's came back, and it never started or something into it is newer |
| GraphLaws.DoneFires | crates/ferrule-cli/src/graph.rs:1069-1082 | a completion, a failure when the agent could not start, fires an outgoing edge exactly when its condition is the verdict's or always |
| GraphLaws.RanIff | crates/ferrule-cli/src/graph.rs:922-1058 | in a run without feedback that left nothing to run, a node ran exactly when each gate's source ran, with a pass behind a pass gate and a failure behind a fail gate; an agent that could not start came out failed |
| GraphLaws.NothingLeft | crates/ferrule-cli/src/graph.rs:915-957 | without feedback a step cap above the number of nodes leaves nothing to run |
| GraphLaws.OneEdgeRuns | crates/ferrule-cli/src/graph.rs:100-107 | whole runs of two checks and an edge, for each condition: the outcomes and the exit code |
| GraphOrder.FinishOrder | crates/ferrule-cli/src/graph.rs:962-1057 | in a batch checks and approvals finish first, then agents that cannot start, then the other agents, then selects, each in the order of the file |
| GraphRun.BatchIsLegal | crates/ferrule-cli/src/graph.rs:962-1057 | inside a batch every node starts below its cap with its gates answered, finishes once, and the clock invariants hold after it |
| GraphRun.RunFrom | crates/ferrule-cli/src/graph.rs:915-957 | every run terminates, at the step cap or with nothing runnable, keeping the invariants |
| GraphRun.StepsAreBounded | crates/ferrule-cli/src/graph.rs:915-968 | steps are the sum of attempts, each node stays within its cap, and steps stay within the sum of caps and within the step cap plus the nodes less one |
| GraphRun.CapOvershoots | crates/ferrule-cli/src/graph.rs:916-921 | that overshoot is reached: a cap of one step lets every node of an unconnected graph run |
| GraphRun.Quiescent | crates/ferrule-cli/src/graph.rs:922-957 | with nothing runnable, a node below its cap whose gates match was last shown every gate's final outcome and every firing into it, but for two background nodes of one batch and a node's edge to itself |
| GraphSeen.ShownIfDoneBefore | crates/ferrule-cli/src/graph.rs:998-1056 | a node's prompt shows another node's outcome of the same stretch of operations if and only if that node finished before the prompt was rendered |
| GraphSeen.StaleIff | crates/ferrule-cli/src/graph.rs:922-1056 | when a run leaves nothing to run, a node below its cap whose gates match is stale on a gate exactly when both ends run in the background, the source was the first to come back after the node started, and it was not an agent that failed at its launch before the node's own |
| GraphSeen.StaleFeedbackIff | crates/ferrule-cli/src/graph.rs:922-1056 | of a feedback edge, whatever became of its source since: its firing was not shown exactly when it took the epoch the node was scheduled at, and the edge is from the node itself or joins two background nodes without the firing having come of a failed launch before the node's own |
| GraphRun.NothingStale | crates/ferrule-cli/src/graph.rs:922-957 | so a run of a graph with no edge between background nodes, such as one of checks and approvals, that stops with nothing runnable leaves nothing stale |
| GraphRun.InlineSelfLoopIsDead | crates/ferrule-cli/src/graph.rs:948-977 | in every reachable state a check's or approval's edge to itself has not fired since it was scheduled |
| GraphSeen.SelfEdgeRefiresIff | crates/ferrule-cli/src/graph.rs:948-952 | an edge from any node to itself asks for a re-run exactly when the last outcome matches it and took a later epoch than the one the node was scheduled at |
| GraphSeen.LaterIffAnotherFinished | crates/ferrule-cli/src/graph.rs:968-1056 | and it took a later one exactly when another node finished between this one's last start and its end |
| GraphStale.SelfRetryNeverHappens | crates/ferrule-cli/src/graph.rs:948-977 | a concrete check that fails with a retry edge to itself runs once and the run ends |
| GraphStale.EditorEndsStale | crates/ferrule-cli/src/graph.rs:1028-1056 | a concrete run ends with all passed, attempts to spare and an editor that never saw the writer's second outcome |
| GraphOnce.RunsTheLeastSet | crates/ferrule-cli/src/graph.rs:915-1058 | without feedback edges, when nothing is left to run, each node ran at most once, and those that ran are the least set closed under "all gates ran and match" |
| GraphOnce.OnlyVerdictsMatter | crates/ferrule-cli/src/graph.rs:915-1058 | the outcomes depend on first verdicts alone, not on kinds, batches, order or step cap |
| GraphRun.AncestorsRan | crates/ferrule-cli/src/graph.rs:927-939 | when every terminal has an outcome, every node has run: each lies upstream of a terminal |
| GraphRun.ExitZeroRanEverything | crates/ferrule-cli/src/graph.rs:1131-1148 | a run that exits 0 without `succeed_when` executed every node |
| Inbox.AgentInbox.End | crates/ferrule-agents/src/supervisor.rs:232-243 | the agent is idle, and a wake is asked for exactly when a waking item is queued |
| Inbox.AgentInbox.Push | crates/ferrule-agents/src/supervisor.rs:248-253 | the item is queued last, and a wake is asked for exactly when it wakes and the agent is idle |
| Inbox.AgentInbox.TakeIfIdle | crates/ferrule-agents/src/supervisor.rs:256-259 | everything queued if the agent is idle and something is, else nothing changes |
| Inbox.AgentInbox.PutBack | crates/ferrule-agents/src/supervisor.rs:261-265 | refused items go back in front of what arrived since |
| Inbox.AgentInbox.ForgetAbout | crates/ferrule-agents/src/supervisor.rs:267-273 | exactly the items about the child go, the rest keep their order |
| Inbox.StepKeepsWakeful | crates/ferrule-agents/src/supervisor.rs:222-273 | any step keeps: an idle agent with a waking item queued has a wake-up call that has not looked yet, or that item was refused |
| Inbox.CallDeliversAll | crates/ferrule-agents/src/supervisor.rs:909-932 | a call that looks takes everything queued and, whatever happens before the waker answers, delivers exactly that if accepted, or queues it again in front if refused |
| Inbox.CallOpensIff | crates/ferrule-agents/src/supervisor.rs:232-253 | a wake-up call is opened exactly by a waking item pushed to an idle agent or queued when a run ends |
| Inbox.CallSteps | crates/ferrule-agents/src/supervisor.rs:909-932 | how a call goes on: it takes everything from an idle agent or ends, and ends when the waker answers |
| Inbox.NothingLost | crates/ferrule-agents/src/supervisor.rs:222-273 | in every interleaving no wake-up is lost, and each pushed item is in exactly one of queued, drained, in flight, delivered or forgotten, once |
| InboxOrder.StepInLineIff | crates/ferrule-agents/src/supervisor.rs:222-273 | every step keeps what was drained, then what is queued, and what each call holds in the order it was pushed, except exactly a refused call that puts back something newer than what is queued or older than what was drained |
| InboxOrder.InLineIff | crates/ferrule-agents/src/supervisor.rs:222-273 | so in every interleaving the order holds at every moment if and only if no refused call does that |
| InboxOrder.AloneNeverJumps | crates/ferrule-agents/src/supervisor.rs:909-932 | a call that took while no other held anything, refused before anything else was taken, does not |
| InboxOrder.DrainedInOrder | crates/ferrule-agents/src/supervisor.rs:222-253 | two notices that arrive during a run are drained in order |
| InboxOrder.RefusedTwiceJumps | crates/ferrule-agents/src/supervisor.rs:909-932 | a concrete run in which two children of an idle root end, both wake-up calls are refused and the second notice is queued before the first |
| Finishing.NoteTells | crates/ferrule-agents/src/supervisor.rs:833-906 | the notice of a recorded end goes to the end of the parent's inbox, about the child, and opens a call exactly when the parent is an idle root |
| Finishing.RowsAfter | crates/ferrule-agents/src/supervisor.rs:825-860 | how each step changes an agent's row: started or resumed it runs, an end is recorded unless it is closed, closing closes |
| Finishing.ClosedIsNotTold | crates/ferrule-agents/src/supervisor.rs:842-860 | the end of a closed child's run is neither recorded nor told |
| Finishing.QuietCounter | crates/ferrule-agents/src/supervisor.rs:825-830 | `finishing` at zero means no run is between its count and its settling, and no report's wake-up call is open |
| Finishing.NotBusyMeansToldAll | crates/ferrule-agents/src/supervisor.rs:1165-1177 | a run whose end the rows showed before the counter read zero has its notice pushed and its wake-up made |
| Finishing.RowsTellIff | crates/ferrule-agents/src/supervisor.rs:1004-1024 | a step leaves a run that has not reported behind a row that says ended, or two on one row, if and only if it is a resume on an old reading of an agent that has such a run |
| Finishing.SerialCallersNeverDouble | crates/ferrule-agents/src/supervisor.rs:1004-1024 | with resumes that act on a reading no older than the agent's last start, as a caller making one call at a time gives, no history has such a step |
| Finishing.NotBusyMeansAllTold | crates/ferrule-agents/src/supervisor.rs:1165-1177 | in every history without such a resume, `busy` saying no means each run there was has told its end, with its notice pushed, or was closed, was stopped or never became a task |
| Finishing.OtherOrderMissesANotice | crates/ferrule-agents/src/supervisor.rs:1166-1176 | read the other way round there is a trace with an ended row, a zero counter and no notice |
| Finishing.WaitLeavesNoNotice | crates/ferrule-agents/src/supervisor.rs:957-999 | in every history from the start, a `wait` that leaves on an ended row and a zero counter leaves no notice of that end, ever after |
| Finishing.NoticeComesBackIffHeld | crates/ferrule-agents/src/supervisor.rs:929-931 | a dropped notice can come back if and only if a wake-up call was holding it |
| Finishing.ClosedNoticeComesBack | crates/ferrule-agents/src/supervisor.rs:1082-1091 | a concrete run in which closing an ended agent meets such a call and its notice is queued again |
| Agents.LimitsHold | crates/ferrule-agents/src/supervisor.rs:574-617 | in every interleaving the table is a forest, no agent is too deep, no parent has too many running children, and open agents exceed the limit by no more than the steps that reopened a closed one; a stretch without such steps leaves closed agents closed |
| Agents.SpawnIff | crates/ferrule-agents/src/supervisor.rs:574-617 | a child is started exactly when its caller has a row and is above the deepest level, there is room for a running child and for an open agent, budget is left and the id is free; and what its row is |
| Agents.SpawnRefusal | crates/ferrule-agents/src/supervisor.rs:529-590 | which refusal comes first: too deep, too many running, no budget, then too many open |
| Agents.ResumeIff | crates/ferrule-agents/src/supervisor.rs:1004-1023 | a resume reads the row of the caller's own child only, and writes exactly when it saw neither running nor closed, there is room and budget is left; else which refusal comes first |
| Agents.ReopensIff | crates/ferrule-agents/src/supervisor.rs:1008-1023 | a step leaves every closed agent closed if and only if it is not a resume whose read saw the agent neither running nor closed, with room for one more running child and budget left, and whose agent is closed by now |
| Agents.OverLimitIff | crates/ferrule-agents/src/supervisor.rs:1004-1024 | a step takes a tree over its limit of open agents if and only if it reopens a closed agent of it while the tree is full |
| Agents.LockedReadKeepsLimit | crates/ferrule-agents/src/supervisor.rs:1004-1024 | with `resume`'s read under the lock the open-agents limit holds outright, whatever ends or is closed between the read and the write |
| Agents.CloseIsOverwritten | crates/ferrule-agents/src/supervisor.rs:1065-1082 | but closed is not final even then: a concrete run closes the agent between the read and the write |
| Agents.ClosedIsFinal | crates/ferrule-agents/src/supervisor.rs:1004-1024 | closed is final once closing, too, waits for a resume under way |
| Agents.StaleReadReopens | crates/ferrule-agents/src/supervisor.rs:1004-1024 | as the code has it, a concrete run in which one agent resumes its child while the root closes it and a third spawns ends with the closed child running and four open agents under a limit of three |
| Agents.LineageOf | crates/ferrule-agents/src/shared.rs:173-181 | the line of an agent ends, after one more agent than its depth, all of its tree |
| Agents.LineageStays | crates/ferrule-agents/src/shared.rs:173-181 | nothing that happens to the table later changes an agent's line |
| Supervisor.Store.Spawn | crates/ferrule-agents/src/supervisor.rs:574-617 | the child runs exactly when depth, both counts, budget and id allow; the checks run in the code's order; the table stays a forest with each child one deeper than its parent |
| Supervisor.Store.Resume | crates/ferrule-agents/src/supervisor.rs:1006-1024 | the part under the lock: the child runs exactly when the status read before it, the running children and the budget allow |
| Supervisor.Store.FinishRun | crates/ferrule-agents/src/store.rs:345-358 | a run's end is recorded, as failed or idle, exactly when the agent is not closed |
| Supervisor.Store.Lineage | crates/ferrule-agents/src/shared.rs:173-181 | the loop returns the agent and everyone above it, in order |
| Supervisor.Store.CloseOrder | crates/ferrule-agents/src/supervisor.rs:1066-1073 | the stack search ends and lists exactly the agent and its descendants, each once, ancestors before descendants |
| Supervisor.Store.CloseTree | crates/ferrule-agents/src/supervisor.rs:1065-1096 | exactly those become closed and no other row changes; those not closed before are returned once each, ancestors first, and exactly the tasks they had claimed are open again |
| Board.TaskList.AddTask | crates/ferrule-agents/src/board.rs:163-200 | a task is added, after everything before it, exactly when all it waits for are tasks of its tree |
| Board.TaskList.Claim | crates/ferrule-agents/src/board.rs:238-304 | with a number: that task or its reason; without: the least number such a claim would accept, and a refusal exactly when none would be |
| Board.FreeIsClaimable | crates/ferrule-agents/src/board.rs:248-275 | a claim is accepted exactly when the task is open, in the tree, by one of the authors, with everything it waits for done |
| Board.RefusalIs | crates/ferrule-agents/src/board.rs:248-275 | which refusal comes first, and what it says: who has the task, who wrote it, or exactly what is undone |
| Board.DoneFrees | crates/ferrule-agents/src/board.rs:238-323 | a task finished without failing frees what waited for it last: a claim by its author's line is refused before and succeeds after |
| Board.FailedBlocks | crates/ferrule-agents/src/board.rs:238-323 | a task finished as failed leaves whatever waits for it, directly or not, open after every further sequence of operations |
| Board.TaskList.FinishTask | crates/ferrule-agents/src/board.rs:308-323 | only the holder finishes a claimed task: it is failed if the call says so, else done |
| Board.TaskList.ReleaseClaims | crates/ferrule-agents/src/board.rs:326-332 | exactly the agent's claimed tasks open again, and they are counted |
| Board.ReachableLists | crates/ferrule-agents/src/board.rs:163-332 | in every reachable list a task waits, directly or not, for older tasks of its tree only, and one that is claimed, done or failed has all of those done |
| Board.AlwaysOrdered | crates/ferrule-agents/src/board.rs:163-332 | in every reachable list dependencies are older tasks of the tree, met by whatever left the open state, and a task has a name on it exactly when it left it |
| Board.BlockedForever | crates/ferrule-agents/src/board.rs:238-323 | what waits, directly or not, for a failed task stays open whatever happens later |
| Board.HeldIsHeld | crates/ferrule-agents/src/board.rs:292-296 | no operation takes a held task from its holder but its own finish or release: two claimers never hold one task |
| Board.OldestOpenIsFree | crates/ferrule-agents/src/board.rs:238-304 | a tree with an open task and none claimed or failed has one its author's line can claim |
| Board.NeverStuck | crates/ferrule-agents/src/board.rs:277-290 | so a claim without a number succeeds there for a line that holds the authors |
| Shared.ClaimersAreBelowAuthors | crates/ferrule-agents/src/shared.rs:173-186 | over agents and tasks together, whoever has or had a task is in its tree with the task's author in its own line |
| Shared.AgentClaims | crates/ferrule-agents/src/shared.rs:173-190 | an agent claims a task exactly when it is open, in its tree, by an author in its line, with all it waits for done |
| Shared.SeenIs | crates/ferrule-agents/src/board.rs:141-160 | a reader sees exactly the entries of its tree and topic that are for all, for it or by it |
| Shared.Posts.Post | crates/ferrule-agents/src/board.rs:121-137 | an entry comes after all others and takes the next number |
| Shared.Posts.Read | crates/ferrule-agents/src/board.rs:141-160 | a page continues what was read up to `since` without gap or repetition, and says to go on exactly when it is full |
| Shared.PostsComeAfter | crates/ferrule-agents/src/shared.rs:77-104 | posts made between two pages change nothing of what was read |
| Slot.Store.Take | relay/worker.js:195-208 | every branch of a take and the storage after it |
| Slot.Store.CheckPut | relay/worker.js:209-211 | the part of a put before it reads its body: every refusal, or the window's end it saw |
| Slot.Store.WritePut | relay/worker.js:212-216 | the part after: the body is stored and the end set from what was seen before |
| Slot.AnswersAre | relay/worker.js:187-211 | which answer each take and put gets, from what storage holds |
| Slot.LifeOfAValue | relay/worker.js:187-219 | an opened slot takes a put for fifteen minutes; the value is there for five, or until the slot ends, and is handed over once; then takes are told it is used until the slot ends and opens anew |
| Slot.OncePerOpeningIff | relay/worker.js:187-219 | in every run of takes, checks, writes and alarms with a clock that never goes back: at every moment at most one put and one valued take have succeeded since the last opening, the put made in it, the take returning its body within both lifetimes, if and only if between a put's check and its write no other put writes and no take opens the slot |
| Slot.WholeIsUndisturbed | relay/worker.js:209-218 | so puts whose body is read with no request in between are always fine |
| Slot.OverlappingPuts | relay/worker.js:210-215 | any two puts whose checks pass on one cell both store, in either order, and the later write is what the slot holds |
| Slot.LateWriteCloses | relay/worker.js:213-215 | a concrete run in which a write after a reopening ends the new window and a put of it is refused |
| Slot.AlarmsMatterIff | relay/worker.js:221-223 | a slot is alike at every moment with and without the alarms that fired at their time or late, and then answers alike, if and only if no write reopens it after its end when only one of the two still knows it was read |
| Slot.AlarmsChangeNothing | relay/worker.js:221-223 | so alarms change no answer of a run whose puts are undisturbed |
| Slot.AlarmForgetsUse | relay/worker.js:209-223 | a concrete run with a disturbed put whose value is handed over if the alarm fired and refused as used if not |
| Mailbox.Store.Put | relay/worker.js:254-270 | every refusal of a put, and the storage after one |
| Mailbox.Store.Take | relay/worker.js:271-288 | the deletion loop and the page it answers with |
| Mailbox.Store.Alarm | relay/worker.js:293-307 | late events go, the rest stay, the alarm is set for the first of them |
| Mailbox.PutReplyIs | relay/worker.js:254-262 | a put is accepted exactly when the mailbox is set up, the body signed, fewer than 1000 events stored and the bytes stay within five mebibytes; else which refusal comes first |
| Mailbox.KeptForADay | relay/worker.js:258-307 | an event is dropped by the alarm exactly a day after its put, when the alarm is set for |
| Mailbox.PageIs | relay/worker.js:286-287 | a page is the first hundred events with greater numbers |
| Mailbox.PutKeeps | relay/worker.js:258-269 | a put keeps the byte count right, both caps, ascending numbers, and an alarm no later than anything's expiry |
| Mailbox.TakeKeeps | relay/worker.js:278-287 | so does a take, which leaves exactly the newer events; its subtraction never goes below zero |
| Mailbox.AlarmKeeps | relay/worker.js:293-307 | so does the alarm; its subtraction never goes below zero either |
| MailboxClient.EveryEventOnce | relay/worker.js:254-307 | in every run, whatever answers are lost, numbers are never given twice, and a client acknowledging by the last number gets each accepted event once, in order and unchanged, unless it expired a day after it came |
| MailboxClient.TakesMakeProgress | relay/worker.js:286-287 | an answer that arrives carries the oldest event the client lacks |
| Fork.Tail | crates/ferrule-agents/src/fork.rs:13-52 | the copy is the shrunk end of the non-system messages without the turn in progress, from the specified start |
| Fork.CopyFits | crates/ferrule-agents/src/fork.rs:33-51 | the copy costs at most the budget and does not open with a result; any longer one costs more or opens with a result |
| Fork.CallsStayWithResults | crates/ferrule-agents/src/fork.rs:18-51 | for a transcript as an agent writes it, every result in the copy has its call before it and every call its result after it |
| Fork.Shrink | crates/ferrule-agents/src/fork.rs:57-72 | role, calls and id stay, the model's own blocks go, short text is unchanged and long text keeps its beginning |
| Fork.ShrunkIs | crates/ferrule-agents/src/fork.rs:57-72 | text longer than the cap becomes its first characters and the note, all other text stays |
| Fork.TokensAre | crates/ferrule-core/src/message.rs:180-189 | a message costs a token for every four bytes of text, reasoning and calls, and four more |
| Fork.NonSystemConcat | crates/ferrule-agents/src/fork.rs:14-17 | leaving out system prompts keeps the order of the rest |
| Fork.FinishedIs | crates/ferrule-agents/src/fork.rs:18-30 | the last message with calls and all after it are left out exactly when one of its calls has no result after it |
| Housekeeping.Directory.PruneDir | crates/ferrule-cli/src/housekeeping.rs:148-188 | removed and left bytes add up to what was found, counts too, and the directory holds exactly what is reported left, or everything on a dry run |
| Housekeeping.PruneIsExact | crates/ferrule-cli/src/housekeeping.rs:161-180 | nothing failing, exactly the expired files go, then the shortest prefix by age that brings the rest within the cap |
| Housekeeping.OrderIsStable | crates/ferrule-cli/src/housekeeping.rs:169 | that order is by age, files of one age as they were found |
| Housekeeping.OverCapIsStuck | crates/ferrule-cli/src/housekeeping.rs:172-178 | whatever fails, more than the cap is left only when nothing left can be removed |
| Housekeeping.DryRunTells | crates/ferrule-cli/src/housekeeping.rs:152-159 | a dry run leaves what a real one would when no removal fails |
| AutoCommit.Workspace.Begin | crates/ferrule-cli/src/autocommit.rs:218-241 | the snapshot holds exactly the dirty paths and what was there, or is none before the first commit |
| AutoCommit.Workspace.End | crates/ferrule-cli/src/autocommit.rs:425-436 | a run's end uses the snapshot up and leaves the specified state and report |
| AutoCommit.Workspace.Commit | crates/ferrule-cli/src/autocommit.rs:284-343 | the git steps in order, with every way they stop |
| AutoCommit.CommitIsTheRuns | crates/ferrule-cli/src/autocommit.rs:245-343 | a commit changes HEAD exactly on the paths dirty now and clean at the start, takes them from the work tree, and leaves the index and work tree of all others and all other branches alone |
| AutoCommit.NewModeBranch | crates/ferrule-cli/src/autocommit.rs:296-371 | in new-branch mode a commit is on one of the tool's branches: the one HEAD was on, or the first of a hundred names that was free, with every old branch, HEAD's included, where it was |
| AutoCommit.CurrentModeBranch | crates/ferrule-cli/src/autocommit.rs:296-305 | in current-branch mode it is on HEAD's branch |
| AutoCommit.WhosePaths | crates/ferrule-cli/src/autocommit.rs:218-266 | which paths are the run's and which the owner's, from HEAD, index and work tree at the start and at the end |
| AutoCommit.HowItEnds | crates/ferrule-cli/src/autocommit.rs:245-343 | what a run's end reports, and which refusal of a commit comes first |
| AutoCommit.CommittedWhen | crates/ferrule-cli/src/autocommit.rs:284-343 | exactly when a run's files are committed, hooks willing: no operation in progress, a branch or a free name to commit to, no path gone from both work tree and index, and something different from HEAD |
| AutoCommit.RemovedFileBlocksTheCommit | crates/ferrule-cli/src/autocommit.rs:306-309 | a concrete run that changed one file and removed another from work tree and index gets nothing committed |
| AutoCommit.RejectedRestores | crates/ferrule-cli/src/autocommit.rs:330-336 | without a commit HEAD, work tree and branches stay; a rejected one leaves the run's paths in the index as in HEAD, so unchanged exactly when the run staged none |
| AutoCommit.RejectionUnstages | crates/ferrule-cli/src/autocommit.rs:330-336 | a concrete run that staged its change finds it unstaged after a rejected commit |
| AutoCommit.Workspace.Undo | crates/ferrule-cli/src/autocommit.rs:458-542 | the refusals in order, and the steps that take a commit back |
| AutoCommit.UndoRefusal | crates/ferrule-cli/src/autocommit.rs:458-518 | which refusal of an undo comes first, the last exactly when a path the commit changed is dirty |
| AutoCommit.UndoTouchesOnly | crates/ferrule-cli/src/autocommit.rs:458-542 | an undo moves HEAD to its parent and restores the commit's clean paths and nothing else, or does nothing |
| AutoCommit.UndoRestores | crates/ferrule-cli/src/autocommit.rs:458-542 | right after a commit it always succeeds and restores HEAD, and the run's paths in index and work tree to HEAD; all others stay |
| AutoCommit.UndoBringsTheStartBack | crates/ferrule-cli/src/autocommit.rs:416-542 | those paths are then as they were when the run started, if HEAD's files had not changed |

## Left out

- AutoCommit.Workspace.End: takes it that HEAD still names a commit when the run ends; a run that leaves the branch without one is not modelled.
- AutoCommit.CommitIsTheRuns: files git ignores are not part of the work tree map, hooks that rewrite files are not modelled, and content hashes are the contents.
- AutoCommit.UndoTouchesOnly: a commit has one parent here; agent commits are never merges.
- Finishing.NotBusyMeansAllTold: supposes no resume started a second run beside one that has not reported; `Finishing.SerialCallersNeverDouble` says why callers cannot.
- Finishing.WaitLeavesNoNotice: `wait` is the steps it takes; its polling, timeout and stop flag are not modelled. The runs of one root come one after another, as the gateway keeps them, each with the wake-up call its end makes.
- Agents.LimitsHold: the lock is one process's; other processes on the same database are not modelled. The budget is a boolean the caller supplies, so spend accounting is not either.
- Supervisor.Store.CloseTree: stopping runs, the grace period and tidying worktrees are not part of it; forgetting notices is a step of `Inbox`.
- Mailbox.Store.Take: events are listed in the order of their numbers, as the listing sorts them; configuration values, signatures and request parsing are booleans or left out.
- Fork.Tail: images are not modelled; a call's arguments are their text.
- Housekeeping.Directory.PruneDir: the walk that finds files and the removal of empty directories are not modelled; the found files are a parameter.
- Shared.ClaimersAreBelowAuthors: a claim reads the caller's line and takes the task in one step; lines never change, so reading earlier is the same.
- Board.TaskList.Claim: numbers start at 0 here and titles, details, results and times are not kept.
- Names, texts, prompts, reports and timestamps: identifiers are naturals and text does not appear, but for `Fork`.
- What agents, checks, approvals and selects compute: verdicts are a function of node and attempt, and whether an agent can be started another.
- `claim_process`, `mark_interrupted`'s ownership test, `charge` and `spent_since`, SQL and file locks.
- `shuffle`, `pick_of` and slate selection, file validation of node fields, chat doors, relay routing, HMAC and encryption, worktrees and the sandbox: each would add easy members, or is input and output.
