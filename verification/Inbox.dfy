/** An agent's inbox and the wake-up calls it causes. Each method is one locked section; between them
  other threads may run, so whole runs are sequences of these steps. */
module Inbox {
  import opened Wrappers

  /** Where an item comes from: the end of a run, or a message. */
  datatype Origin = Notice(run: nat) | Message(number: nat)

  datatype Item = Item(origin: Origin, about: Option<nat>, wakes: bool)

  datatype Queue = Queue(items: seq<Item>, running: bool)

  predicate AnyWakes(items: seq<Item>) {
    exists i :: 0 <= i < |items| && items[i].wakes
  }

  function Keep(items: seq<Item>, child: nat): (kept: seq<Item>)
    ensures forall x :: x in kept <==> x in items && x.about != Some(child)
  {
    if items == [] then []
    else
      var last := items[|items| - 1];
      Keep(items[..|items| - 1], child) + if last.about != Some(child) then [last] else []
  }

  function Dropped(items: seq<Item>, child: nat): (gone: seq<Item>)
    ensures forall x :: x in gone <==> x in items && x.about == Some(child)
  {
    if items == [] then []
    else
      var last := items[|items| - 1];
      Dropped(items[..|items| - 1], child) + if last.about == Some(child) then [last] else []
  }

  /** How often `x` is in `items`. */
  function Count(items: seq<Item>, x: Item): nat {
    if items == [] then 0 else Count(items[..|items| - 1], x) + if items[|items| - 1] == x then 1 else 0
  }

  lemma {:induction false} CountConcat(a: seq<Item>, b: seq<Item>, x: Item)
    ensures Count(a + b, x) == Count(a, x) + Count(b, x)
    decreases |b|
  {
    if b == [] {
      assert a + b == a;
    } else {
      assert (a + b)[..|a + b| - 1] == a + b[..|b| - 1];
      CountConcat(a, b[..|b| - 1], x);
    }
  }

  lemma {:induction false} KeepAndDropped(items: seq<Item>, child: nat, x: Item)
    ensures Count(items, x) == Count(Keep(items, child), x) + Count(Dropped(items, child), x)
  {
    if items != [] {
      var rest, last := items[..|items| - 1], items[|items| - 1];
      KeepAndDropped(rest, child, x);
      CountConcat(Keep(rest, child), if last.about != Some(child) then [last] else [], x);
      CountConcat(Dropped(rest, child), if last.about == Some(child) then [last] else [], x);
      assert Count([last], x) == if last == x then 1 else 0 by { assert [last][..0] == []; }
    }
  }

  // ---------------------------------------------------------------- what each locked section does

  function Begun(q: Queue): Queue {
    Queue(q.items, true)
  }

  function Taken(q: Queue): Queue {
    Queue([], q.running)
  }

  function Ended(q: Queue): Queue {
    Queue(q.items, false)
  }

  function Pushed(q: Queue, item: Item): Queue {
    Queue(q.items + [item], q.running)
  }

  predicate PushWakes(q: Queue, item: Item) {
    item.wakes && !q.running
  }

  /** Whether a wake-up call finds something to hand over. */
  predicate Ready(q: Queue) {
    !q.running && q.items != []
  }

  function Restored(q: Queue, back: seq<Item>): Queue {
    Queue(back + q.items, q.running)
  }

  function Without(q: Queue, child: nat): Queue {
    Queue(Keep(q.items, child), q.running)
  }

  class AgentInbox {
    var items: seq<Item>
    var running: bool

    function Model(): Queue
      reads this
    {
      Queue(items, running)
    }

    constructor ()
      ensures Model() == Queue([], false)
    {
      items, running := [], false;
    }

    method Begin()
      modifies this
      ensures Model() == Begun(old(Model())) && running && items == old(items)
    {
      running := true;
    }

    method Take() returns (taken: seq<Item>)
      modifies this
      ensures taken == old(items) && Model() == Taken(old(Model()))
      ensures items == [] && running == old(running)
    {
      taken := items;
      items := [];
    }

    /** True when the caller must wake the agent. */
    method End() returns (wake: bool)
      modifies this
      ensures Model() == Ended(old(Model())) && wake == AnyWakes(old(items))
      ensures !running && items == old(items) && (wake <==> exists i :: 0 <= i < |items| && items[i].wakes)
    {
      running := false;
      wake := false;
      var i := 0;
      while i < |items|
        invariant 0 <= i <= |items|
        invariant wake == exists j :: 0 <= j < i && items[j].wakes
      {
        if items[i].wakes {
          wake := true;
        }
        i := i + 1;
      }
    }

    method Push(item: Item) returns (wake: bool)
      modifies this
      ensures Model() == Pushed(old(Model()), item) && wake == PushWakes(old(Model()), item)
      ensures items == old(items) + [item] && running == old(running) && (wake <==> item.wakes && !running)
    {
      wake := item.wakes && !running;
      items := items + [item];
    }

    method TakeIfIdle() returns (taken: Option<seq<Item>>)
      modifies this
      ensures if Ready(old(Model()))
        then taken == Some(old(items)) && Model() == Taken(old(Model()))
        else taken == None && Model() == old(Model())
      ensures running == old(running)
      ensures if !running && old(items) != [] then taken == Some(old(items)) && items == []
        else taken == None && items == old(items)
    {
      if !running && items != [] {
        taken := Some(items);
        items := [];
      } else {
        taken := None;
      }
    }

    method PutBack(back: seq<Item>)
      modifies this
      ensures Model() == Restored(old(Model()), back) && items == back + old(items) && running == old(running)
    {
      items := back + items;
    }

    method ForgetAbout(child: nat)
      modifies this
      ensures Model() == Without(old(Model()), child) && running == old(running)
      ensures forall x :: x in items <==> x in old(items) && x.about != Some(child)
    {
      ghost var was := items;
      var kept: seq<Item> := [];
      var i := 0;
      while i < |items|
        invariant 0 <= i <= |items| && items == was
        invariant kept == Keep(was[..i], child)
      {
        assert was[..i + 1][..i] == was[..i];
        if items[i].about != Some(child) {
          kept := kept + [items[i]];
        }
        i := i + 1;
      }
      assert was[..i] == was;
      items := kept;
    }
  }

  // ---------------------------------------------------------------- wake-up calls

  /** A call of `wake_root`: begun by the end of a child's run (its owner), or by the end of the agent's own. */
  datatype CallPc = Called | Holding(items: seq<Item>) | Over

  datatype Call = Call(owner: Option<nat>, pc: CallPc)

  /** The inbox, the calls made so far, and what became of everything pushed. */
  datatype Box = Box(
    queue: Queue,
    calls: seq<Call>,
    pushed: seq<Item>,
    drained: seq<Item>,
    delivered: seq<Item>,
    forgotten: seq<Item>,
    refused: set<Item>)

  const EMPTY: Box := Box(Queue([], false), [], [], [], [], [], {})

  datatype Event =
    | Push(item: Item, owner: Option<nat>)
    | Begin
    | Take
    | End
    | CannotWake(call: nat)
    | TryTake(call: nat)
    | Woke(call: nat, ok: bool)
    | Forget(child: nat)

  ghost predicate Enabled(b: Box, e: Event) {
    match e
    case Push(item, _) => forall x :: x in b.pushed ==> x.origin != item.origin
    case CannotWake(c) => c < |b.calls| && b.calls[c].pc.Called?
    case TryTake(c) => c < |b.calls| && b.calls[c].pc.Called?
    case Woke(c, _) => c < |b.calls| && b.calls[c].pc.Holding?
    case _ => true
  }

  /** A push to an idle agent of an item that wakes opens a call; so does an end with such an item queued. */
  predicate OpensCall(b: Box, e: Event) {
    match e
    case Push(item, _) => PushWakes(b.queue, item)
    case End => AnyWakes(b.queue.items)
    case _ => false
  }

  function SetPc(calls: seq<Call>, c: nat, pc: CallPc): seq<Call>
    requires c < |calls|
  {
    calls[c := calls[c].(pc := pc)]
  }

  function Next(b: Box, e: Event): Box
    requires match e case CannotWake(c) => c < |b.calls| case TryTake(c) => c < |b.calls|
      case Woke(c, _) => c < |b.calls| && b.calls[c].pc.Holding? case _ => true
  {
    var q := b.queue;
    match e
    case Push(item, owner) =>
      b.(queue := Pushed(q, item), pushed := b.pushed + [item],
         calls := if OpensCall(b, e) then b.calls + [Call(owner, Called)] else b.calls)
    case Begin => b.(queue := Begun(q))
    case Take => b.(queue := Taken(q), drained := b.drained + q.items)
    case End =>
      b.(queue := Ended(q), calls := if OpensCall(b, e) then b.calls + [Call(None, Called)] else b.calls)
    case CannotWake(c) => b.(calls := SetPc(b.calls, c, Over), refused := b.refused + set x | x in q.items)
    case TryTake(c) =>
      if Ready(q) then b.(queue := Taken(q), calls := SetPc(b.calls, c, Holding(q.items)))
      else b.(calls := SetPc(b.calls, c, Over))
    case Woke(c, ok) =>
      var held := b.calls[c].pc.items;
      if ok then b.(calls := SetPc(b.calls, c, Over), delivered := b.delivered + held)
      else b.(calls := SetPc(b.calls, c, Over), queue := Restored(q, held), refused := b.refused + set x | x in held)
    case Forget(child) => b.(queue := Without(q, child), forgotten := b.forgotten + Dropped(q.items, child))
  }

  // ---------------------------------------------------------------- no wake-up is lost

  ghost predicate WakePending(b: Box) {
    exists c :: 0 <= c < |b.calls| && b.calls[c].pc.Called?
  }

  /** An idle agent with a waking item queued has a call that hasn't looked yet, or the item was refused. */
  ghost predicate Wakeful(b: Box) {
    !b.queue.running ==>
      forall x :: x in b.queue.items && x.wakes ==> WakePending(b) || x in b.refused
  }

  /** What opens a call: a waking item pushed to an idle agent, or a waking item queued when a run ends; nothing
    else. */
  lemma CallOpensIff(b: Box, e: Event)
    requires Enabled(b, e)
    ensures var more := |Next(b, e).calls| - |b.calls|;
      && (more == 0 || (more == 1 && Next(b, e).calls[|b.calls|].pc == Called))
      && (more == 1 <==>
           || (e.Push? && e.item.wakes && !b.queue.running)
           || (e.End? && exists i :: 0 <= i < |b.queue.items| && b.queue.items[i].wakes))
  {
  }

  /** What becomes of a call: it ends without looking when the root can't be woken; when it looks, it takes everything if
    the agent is idle and there is anything, else it ends; it ends when the waker answers. */
  lemma CallSteps(b: Box, c: nat, ok: bool)
    requires c < |b.calls|
    ensures Next(b, CannotWake(c)).calls == b.calls[c := Call(b.calls[c].owner, Over)] && Next(b, CannotWake(c)).queue == b.queue
    ensures var t := Next(b, TryTake(c));
      if !b.queue.running && b.queue.items != []
      then t.calls == b.calls[c := Call(b.calls[c].owner, Holding(b.queue.items))] && t.queue == Queue([], false)
      else t.calls == b.calls[c := Call(b.calls[c].owner, Over)] && t.queue == b.queue
    ensures b.calls[c].pc.Holding? ==>
      var t, held := Next(b, Woke(c, ok)), b.calls[c].pc.items;
      && t.calls == b.calls[c := Call(b.calls[c].owner, Over)]
      && t.queue == Queue(if ok then b.queue.items else held + b.queue.items, b.queue.running)
      && t.delivered == if ok then b.delivered + held else b.delivered
  {
  }

  lemma AppendKeepsPending(b: Box, b': Box, call: Call)
    requires b'.calls == b.calls + [call]
    ensures WakePending(b) || call.pc.Called? ==> WakePending(b')
  {
    if call.pc.Called? {
      assert b'.calls[|b.calls|].pc.Called?;
    }
    if WakePending(b) {
      var c :| 0 <= c < |b.calls| && b.calls[c].pc.Called?;
      assert b'.calls[c].pc.Called?;
    }
  }

  lemma StepKeepsWakeful(b: Box, e: Event)
    requires Wakeful(b) && Enabled(b, e)
    ensures Wakeful(Next(b, e))
  {
    var b' := Next(b, e);
    match e
    case Push(item, owner) =>
      if OpensCall(b, e) {
        AppendKeepsPending(b, b', Call(owner, Called));
      }
    case End =>
      if OpensCall(b, e) {
        AppendKeepsPending(b, b', Call(None, Called));
      }
    case CannotWake(c) =>
    case TryTake(c) =>
      assert b'.queue.running || b'.queue.items == [];
    case Woke(c, ok) =>
      if WakePending(b) {
        var d :| 0 <= d < |b.calls| && b.calls[d].pc.Called?;
        assert b'.calls[d].pc.Called?;
      }
    case _ =>
  }

  // ---------------------------------------------------------------- every item is in one place

  function HeldBy(call: Call, x: Item): nat {
    if call.pc.Holding? then Count(call.pc.items, x) else 0
  }

  /** How often the calls hold `x`, between taking it and waking. */
  function InFlight(calls: seq<Call>, x: Item): nat {
    if calls == [] then 0 else InFlight(calls[..|calls| - 1], x) + HeldBy(calls[|calls| - 1], x)
  }

  lemma {:induction false} InFlightUpdate(calls: seq<Call>, c: nat, pc: CallPc, x: Item)
    requires c < |calls|
    ensures InFlight(SetPc(calls, c, pc), x) + HeldBy(calls[c], x) == InFlight(calls, x) + HeldBy(calls[c].(pc := pc), x)
  {
    var last := |calls| - 1;
    if c == last {
      assert SetPc(calls, c, pc)[..last] == calls[..last];
    } else {
      assert SetPc(calls, c, pc)[..last] == SetPc(calls[..last], c, pc);
      InFlightUpdate(calls[..last], c, pc, x);
    }
  }

  lemma InFlightAppend(calls: seq<Call>, call: Call, x: Item)
    ensures InFlight(calls + [call], x) == InFlight(calls, x) + HeldBy(call, x)
  {
    assert (calls + [call])[..|calls|] == calls;
  }

  /** `x` is in as many places as it was pushed times. */
  ghost predicate Conserved(b: Box, x: Item) {
    Count(b.pushed, x) ==
      Count(b.queue.items, x) + Count(b.drained, x) + InFlight(b.calls, x) + Count(b.delivered, x)
      + Count(b.forgotten, x)
  }

  ghost predicate Fresh(b: Box) {
    forall i, j :: 0 <= i < j < |b.pushed| ==> b.pushed[i].origin != b.pushed[j].origin
  }

  lemma StepFresh(b: Box, e: Event)
    requires Fresh(b) && Enabled(b, e)
    ensures Fresh(Next(b, e))
  {
  }

  lemma StepConserves(b: Box, e: Event, x: Item)
    requires Conserved(b, x) && Enabled(b, e)
    ensures Conserved(Next(b, e), x)
  {
    var items := b.queue.items;
    match e
    case Push(item, owner) =>
      CountConcat(b.pushed, [item], x);
      CountConcat(items, [item], x);
      InFlightAppend(b.calls, Call(owner, Called), x);
    case Take => CountConcat(b.drained, items, x);
    case End => InFlightAppend(b.calls, Call(None, Called), x);
    case CannotWake(c) => InFlightUpdate(b.calls, c, Over, x);
    case TryTake(c) =>
      InFlightUpdate(b.calls, c, Over, x);
      InFlightUpdate(b.calls, c, Holding(items), x);
    case Woke(c, ok) =>
      InFlightUpdate(b.calls, c, Over, x);
      CountConcat(b.delivered, b.calls[c].pc.items, x);
      CountConcat(b.calls[c].pc.items, items, x);
    case Forget(child) =>
      KeepAndDropped(items, child, x);
      CountConcat(b.forgotten, Dropped(items, child), x);
    case Begin =>
  }

  // ---------------------------------------------------------------- whole runs

  ghost predicate Possible(b: Box, events: seq<Event>)
    decreases |events|
  {
    events == [] || (Enabled(b, events[0]) && Possible(Next(b, events[0]), events[1..]))
  }

  ghost function After(b: Box, events: seq<Event>): Box
    requires Possible(b, events)
    decreases |events|
  {
    if events == [] then b else After(Next(b, events[0]), events[1..])
  }

  /** Only its own answer ends a call that holds items. */
  lemma {:induction false} HoldingLasts(b: Box, events: seq<Event>, c: nat)
    requires Possible(b, events) && c < |b.calls| && b.calls[c].pc.Holding?
    requires forall i :: 0 <= i < |events| ==> !(events[i].Woke? && events[i].call == c)
    ensures var t := After(b, events); c < |t.calls| && t.calls[c] == b.calls[c]
    decreases |events|
  {
    if events != [] {
      assert Next(b, events[0]).calls[c] == b.calls[c];
      hide Next;
      HoldingLasts(Next(b, events[0]), events[1..], c);
    }
  }

  /** A call that looks takes everything queued, and whatever happens before the waker answers, that is what it
    delivers when the waker accepts; refused, it is queued again before anything that came since. */
  lemma CallDeliversAll(b: Box, c: nat, between: seq<Event>, ok: bool)
    requires c < |b.calls| && b.calls[c].pc.Called? && Ready(b.queue) && Possible(Next(b, TryTake(c)), between)
    requires forall i :: 0 <= i < |between| ==> !(between[i].Woke? && between[i].call == c)
    ensures Next(b, TryTake(c)).queue.items == []
    ensures var t := After(Next(b, TryTake(c)), between);
      && Enabled(t, Woke(c, ok))
      && var u := Next(t, Woke(c, ok));
      && u.delivered == (if ok then t.delivered + b.queue.items else t.delivered)
      && u.queue.items == (if ok then t.queue.items else b.queue.items + t.queue.items)
  {
    HoldingLasts(Next(b, TryTake(c)), between, c);
  }

  lemma {:induction false} RunKeeps(b: Box, events: seq<Event>, x: Item)
    requires Possible(b, events) && Wakeful(b) && Conserved(b, x) && Fresh(b)
    ensures Wakeful(After(b, events)) && Conserved(After(b, events), x) && Fresh(After(b, events))
    decreases |events|
  {
    if events != [] {
      StepKeepsWakeful(b, events[0]);
      StepConserves(b, events[0], x);
      StepFresh(b, events[0]);
      RunKeeps(Next(b, events[0]), events[1..], x);
    }
  }

  lemma {:induction false} DistinctCounts(s: seq<Item>, x: Item)
    requires forall i, j :: 0 <= i < j < |s| ==> s[i].origin != s[j].origin
    ensures Count(s, x) == if x in s then 1 else 0
  {
    if s != [] {
      var last := |s| - 1;
      assert s == s[..last] + [s[last]];
      DistinctCounts(s[..last], x);
    }
  }

  /** In any interleaving of pushes, runs, wake-ups and forgettings: no wake-up is lost, and each item pushed
    is in exactly one place, once. */
  lemma NothingLost(events: seq<Event>, x: Item)
    requires Possible(EMPTY, events) && x in After(EMPTY, events).pushed
    ensures var b := After(EMPTY, events);
      && Wakeful(b)
      && Count(b.queue.items, x) + Count(b.drained, x) + InFlight(b.calls, x) + Count(b.delivered, x)
         + Count(b.forgotten, x) == 1
  {
    RunKeeps(EMPTY, events, x);
    DistinctCounts(After(EMPTY, events).pushed, x);
  }
}
