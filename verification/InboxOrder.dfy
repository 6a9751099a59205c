/** The order in which an agent gets what was pushed to it, over every interleaving of pushes, runs and wake-up
  calls. */
module InboxOrder {
  import opened Inbox
  import opened Wrappers

  /** `x` was pushed before `y`. */
  ghost predicate Older(pushed: seq<Item>, x: Item, y: Item) {
    exists i, j :: 0 <= i < j < |pushed| && pushed[i] == x && pushed[j] == y
  }

  ghost predicate Ordered(pushed: seq<Item>, s: seq<Item>) {
    forall p, q :: 0 <= p < q < |s| ==> Older(pushed, s[p], s[q])
  }

  ghost predicate Known(pushed: seq<Item>, s: seq<Item>) {
    forall x :: x in s ==> x in pushed
  }

  /** What the agent's own runs drained, followed by what is queued, is in the order it was pushed in, and so is what
    each call holds. */
  ghost predicate InLine(b: Box) {
    && Ordered(b.pushed, b.drained + b.queue.items)
    && forall c :: 0 <= c < |b.calls| && b.calls[c].pc.Holding? ==> Ordered(b.pushed, b.calls[c].pc.items)
  }

  /** All that is anywhere was pushed. */
  ghost predicate AllKnown(b: Box) {
    && Known(b.pushed, b.drained) && Known(b.pushed, b.queue.items)
    && forall c :: 0 <= c < |b.calls| && b.calls[c].pc.Holding? ==> Known(b.pushed, b.calls[c].pc.items)
  }

  /** A refused call puts something back that is newer than what is queued, or older than what was drained. */
  ghost predicate Jumps(b: Box, e: Event) {
    e.Woke? && !e.ok && e.call < |b.calls| && b.calls[e.call].pc.Holding? &&
    exists h :: h in b.calls[e.call].pc.items &&
      ((exists x :: x in b.drained && !Older(b.pushed, x, h)) || (exists y :: y in b.queue.items && !Older(b.pushed, h, y)))
  }

  // ---------------------------------------------------------------- sequences in order

  lemma PushKeepsOrder(pushed: seq<Item>, item: Item, s: seq<Item>)
    requires Ordered(pushed, s) && Known(pushed, s)
    ensures Ordered(pushed + [item], s) && Ordered(pushed + [item], s + [item])
    ensures Known(pushed + [item], s) && Known(pushed + [item], s + [item])
  {
    var more := pushed + [item];
    forall p, q | 0 <= p < q < |s + [item]|
      ensures Older(more, (s + [item])[p], (s + [item])[q])
    {
      if q < |s| {
        assert Older(pushed, s[p], s[q]);
        var i, j :| 0 <= i < j < |pushed| && pushed[i] == s[p] && pushed[j] == s[q];
        assert more[i] == s[p] && more[j] == s[q];
      } else {
        assert s[p] in pushed;
        var i :| 0 <= i < |pushed| && pushed[i] == s[p];
        assert more[i] == s[p] && more[|pushed|] == item;
      }
    }
    forall p, q | 0 <= p < q < |s|
      ensures Older(more, s[p], s[q])
    {
      assert (s + [item])[p] == s[p] && (s + [item])[q] == s[q];
    }
  }

  lemma PartOrdered(pushed: seq<Item>, a: seq<Item>, b: seq<Item>)
    requires Ordered(pushed, a + b)
    ensures Ordered(pushed, a) && Ordered(pushed, b)
  {
    hide Older;
    forall p, q | 0 <= p < q < |a|
      ensures Older(pushed, a[p], a[q])
    {
      assert (a + b)[p] == a[p] && (a + b)[q] == a[q];
    }
    forall p, q | 0 <= p < q < |b|
      ensures Older(pushed, b[p], b[q])
    {
      assert (a + b)[|a| + p] == b[p] && (a + b)[|a| + q] == b[q];
    }
  }

  /** Two ordered sequences are ordered end to end when all of the first is older than all of the second. */
  lemma JoinOrdered(pushed: seq<Item>, a: seq<Item>, b: seq<Item>)
    requires Ordered(pushed, a) && Ordered(pushed, b)
    ensures Ordered(pushed, a + b) <==> forall x, y :: x in a && y in b ==> Older(pushed, x, y)
  {
    hide Older;
    if Ordered(pushed, a + b) {
      forall x, y | x in a && y in b
        ensures Older(pushed, x, y)
      {
        var p :| 0 <= p < |a| && a[p] == x;
        var q :| 0 <= q < |b| && b[q] == y;
        assert (a + b)[p] == x && (a + b)[|a| + q] == y;
      }
    }
  }

  lemma {:induction false} KeepOrdered(pushed: seq<Item>, drained: seq<Item>, items: seq<Item>, child: nat)
    requires Ordered(pushed, drained + items)
    ensures Ordered(pushed, drained + Keep(items, child))
    decreases |items|
  {
    if items != [] {
      var rest, last := items[..|items| - 1], items[|items| - 1];
      assert drained + items == (drained + rest) + [last];
      PartOrdered(pushed, drained + rest, [last]);
      KeepOrdered(pushed, drained, rest, child);
      JoinOrdered(pushed, drained + rest, [last]);
      hide Older, Ordered;
      if last.about != Some(child) {
        var kept := Keep(rest, child);
        JoinOrdered(pushed, drained + kept, [last]);
        assert forall x :: x in drained + kept ==> x in drained + rest;
        assert drained + Keep(items, child) == (drained + kept) + [last];
      } else {
        assert Keep(items, child) == Keep(rest, child) + [];
        assert drained + Keep(items, child) == drained + Keep(rest, child);
      }
    }
  }

  // ---------------------------------------------------------------- every step

  lemma StepKnown(b: Box, e: Event)
    requires AllKnown(b) && Enabled(b, e)
    ensures AllKnown(Next(b, e))
  {
  }

  lemma PushInLine(b: Box, item: Item, owner: Option<nat>)
    requires InLine(b) && AllKnown(b)
    ensures InLine(Next(b, Push(item, owner)))
  {
    hide Ordered, Older;
    var b' := Next(b, Push(item, owner));
    PushKeepsOrder(b.pushed, item, b.drained + b.queue.items);
    assert b'.drained + b'.queue.items == b.drained + b.queue.items + [item];
    forall c | 0 <= c < |b'.calls| && b'.calls[c].pc.Holding?
      ensures Ordered(b'.pushed, b'.calls[c].pc.items)
    {
      assert c < |b.calls| && b'.calls[c] == b.calls[c];
      PushKeepsOrder(b.pushed, item, b.calls[c].pc.items);
    }
  }

  lemma TakeInLine(b: Box, e: Event)
    requires InLine(b) && Enabled(b, e) && (e.Take? || e.TryTake?)
    ensures InLine(Next(b, e))
  {
    hide Ordered, Older;
    PartOrdered(b.pushed, b.drained, b.queue.items);
    assert b.drained + b.queue.items + [] == b.drained + b.queue.items && b.drained + [] == b.drained;
  }

  lemma ForgetInLine(b: Box, child: nat)
    requires InLine(b)
    ensures InLine(Next(b, Forget(child)))
  {
    hide Ordered, Older;
    KeepOrdered(b.pushed, b.drained, b.queue.items, child);
  }

  lemma ThreeOrdered(pushed: seq<Item>, drained: seq<Item>, held: seq<Item>, items: seq<Item>)
    requires Ordered(pushed, drained + items) && Ordered(pushed, held)
    ensures Ordered(pushed, drained + (held + items)) <==>
      forall h :: h in held ==>
        (forall x :: x in drained ==> Older(pushed, x, h)) && (forall y :: y in items ==> Older(pushed, h, y))
  {
    hide Ordered, Older;
    PartOrdered(pushed, drained, items);
    JoinOrdered(pushed, drained, items);
    JoinOrdered(pushed, held, items);
    if Ordered(pushed, held + items) {
      JoinOrdered(pushed, drained, held + items);
    } else if Ordered(pushed, drained + (held + items)) {
      PartOrdered(pushed, drained, held + items);
    }
  }

  lemma WokeInLineIff(b: Box, c: nat, ok: bool)
    requires InLine(b) && Enabled(b, Woke(c, ok))
    ensures InLine(Next(b, Woke(c, ok))) <==> !Jumps(b, Woke(c, ok))
  {
    hide Ordered, Older;
    if !ok {
      var held, items := b.calls[c].pc.items, b.queue.items;
      PartOrdered(b.pushed, b.drained, items);
      JoinOrdered(b.pushed, b.drained, items);
      ThreeOrdered(b.pushed, b.drained, held, items);
    }
  }

  /** The one step that puts anything out of order is a refused call that puts back something newer than what came to be
    queued meanwhile, or older than what was drained. */
  lemma StepInLineIff(b: Box, e: Event)
    requires InLine(b) && AllKnown(b) && Enabled(b, e)
    ensures InLine(Next(b, e)) <==> !Jumps(b, e)
  {
    hide Ordered, Older;
    match e
    case Push(item, owner) => PushInLine(b, item, owner);
    case Take => TakeInLine(b, e);
    case TryTake(_) => TakeInLine(b, e);
    case Forget(child) => ForgetInLine(b, child);
    case Woke(c, ok) => WokeInLineIff(b, c, ok);
    case _ =>
  }

  // ---------------------------------------------------------------- whole runs

  /** At every moment of a run. */
  ghost predicate AlwaysInLine(b: Box, events: seq<Event>)
    requires Possible(b, events)
    decreases |events|
  {
    InLine(b) && (events != [] ==> AlwaysInLine(Next(b, events[0]), events[1..]))
  }

  ghost predicate NeverJumps(b: Box, events: seq<Event>)
    requires Possible(b, events)
    decreases |events|
  {
    events == [] || (!Jumps(b, events[0]) && NeverJumps(Next(b, events[0]), events[1..]))
  }

  lemma {:induction false} InLineIffFrom(b: Box, events: seq<Event>)
    requires Possible(b, events) && InLine(b) && AllKnown(b)
    ensures AlwaysInLine(b, events) <==> NeverJumps(b, events)
    decreases |events|
  {
    hide Next, InLine, AllKnown, Jumps;
    if events != [] {
      StepInLineIff(b, events[0]);
      if !Jumps(b, events[0]) {
        StepKnown(b, events[0]);
        InLineIffFrom(Next(b, events[0]), events[1..]);
      }
    }
  }

  /** In every interleaving, of two items drained, queued or in one call's hands the one pushed first comes first, and
    what was drained comes before what is queued, at every moment if and only if no refused call jumps. */
  lemma InLineIff(events: seq<Event>)
    requires Possible(EMPTY, events)
    ensures AlwaysInLine(EMPTY, events) <==> NeverJumps(EMPTY, events)
  {
    InLineIffFrom(EMPTY, events);
  }

  /** While call `c` holds what it took, all of that is newer than what was drained and older than what is queued, and
    no other call holds anything. */
  ghost predicate Alone(b: Box, c: nat) {
    && c < |b.calls| && b.calls[c].pc.Holding?
    && (forall d :: 0 <= d < |b.calls| && d != c ==> !b.calls[d].pc.Holding?)
    && (forall h, x :: h in b.calls[c].pc.items && x in b.drained ==> Older(b.pushed, x, h))
    && (forall h, y :: h in b.calls[c].pc.items && y in b.queue.items ==> Older(b.pushed, h, y))
  }

  lemma AloneStarts(b: Box, c: nat)
    requires InLine(b) && AllKnown(b) && Enabled(b, TryTake(c)) && Ready(b.queue)
    requires forall d :: 0 <= d < |b.calls| ==> !b.calls[d].pc.Holding?
    ensures Alone(Next(b, TryTake(c)), c)
  {
    hide Older;
    PartOrdered(b.pushed, b.drained, b.queue.items);
    JoinOrdered(b.pushed, b.drained, b.queue.items);
  }

  lemma OlderStays(pushed: seq<Item>, item: Item, x: Item, y: Item)
    ensures Older(pushed, x, y) ==> Older(pushed + [item], x, y)
    ensures x in pushed ==> Older(pushed + [item], x, item)
  {
    var more := pushed + [item];
    if Older(pushed, x, y) {
      var i, j :| 0 <= i < j < |pushed| && pushed[i] == x && pushed[j] == y;
      assert more[i] == x && more[j] == y;
    }
    if x in pushed {
      var i :| 0 <= i < |pushed| && pushed[i] == x;
      assert more[i] == x && more[|pushed|] == item;
    }
  }

  lemma AloneStays(b: Box, c: nat, e: Event)
    requires Alone(b, c) && AllKnown(b) && Enabled(b, e) && !e.Take? && !e.TryTake? && !e.Woke?
    ensures Alone(Next(b, e), c) && Next(b, e).calls[c] == b.calls[c]
  {
    hide Older;
    if e.Push? {
      var b' := Next(b, e);
      assert b'.calls[c] == b.calls[c];
      forall h, x | h in b.calls[c].pc.items && x in b.drained
        ensures Older(b'.pushed, x, h)
      {
        OlderStays(b.pushed, e.item, x, h);
      }
      forall h, y | h in b.calls[c].pc.items && y in b'.queue.items
        ensures Older(b'.pushed, h, y)
      {
        OlderStays(b.pushed, e.item, h, y);
      }
    }
  }

  lemma {:induction false} AloneLasts(b: Box, c: nat, between: seq<Event>)
    requires Alone(b, c) && AllKnown(b) && Possible(b, between)
    requires forall i :: 0 <= i < |between| ==> !between[i].Take? && !between[i].TryTake? && !between[i].Woke?
    ensures Alone(After(b, between), c)
    decreases |between|
  {
    hide Next, Alone, AllKnown;
    if between != [] {
      AloneStays(b, c, between[0]);
      StepKnown(b, between[0]);
      AloneLasts(Next(b, between[0]), c, between[1..]);
    }
  }

  /** A call that took what there was while no other held anything, and is refused before anything else was taken, puts
    it back in its place. */
  lemma AloneNeverJumps(b: Box, c: nat, between: seq<Event>)
    requires InLine(b) && AllKnown(b) && Enabled(b, TryTake(c)) && Ready(b.queue)
    requires forall d :: 0 <= d < |b.calls| ==> !b.calls[d].pc.Holding?
    requires Possible(Next(b, TryTake(c)), between)
    requires forall i :: 0 <= i < |between| ==> !between[i].Take? && !between[i].TryTake? && !between[i].Woke?
    ensures !Jumps(After(Next(b, TryTake(c)), between), Woke(c, false))
  {
    hide Next, Older, InLine, AllKnown;
    AloneStarts(b, c);
    StepKnown(b, TryTake(c));
    AloneLasts(Next(b, TryTake(c)), c, between);
  }

  // ---------------------------------------------------------------- two runs

  const FIRST: Item := Item(Notice(1), Some(1), true)
  const SECOND: Item := Item(Notice(2), Some(2), true)

  /** Two notices that arrive during a run are drained in the order they came in. */
  lemma DrainedInOrder()
    ensures var events := [Begin, Push(FIRST, Some(1)), Push(SECOND, Some(2)), Take];
      Possible(EMPTY, events) && After(EMPTY, events).drained == [FIRST, SECOND]
  {
    var b1 := Next(EMPTY, Begin);
    var b2 := Next(b1, Push(FIRST, Some(1)));
    var b3 := Next(b2, Push(SECOND, Some(2)));
    Follow(EMPTY, Begin, [Push(FIRST, Some(1)), Push(SECOND, Some(2)), Take]);
    Follow(b1, Push(FIRST, Some(1)), [Push(SECOND, Some(2)), Take]);
    Follow(b2, Push(SECOND, Some(2)), [Take]);
    Follow(b3, Take, []);
  }

  lemma Follow(b: Box, e: Event, rest: seq<Event>)
    ensures Possible(b, [e] + rest) <==> Enabled(b, e) && Possible(Next(b, e), rest)
    ensures Possible(b, [e] + rest) ==> After(b, [e] + rest) == After(Next(b, e), rest)
  {
    assert ([e] + rest)[1..] == rest;
  }

  const ONE: Box := Box(Queue([FIRST], false), [Call(Some(1), Called)], [FIRST], [], [], [], {})
  const TAKEN: Box := ONE.(queue := Queue([], false), calls := [Call(Some(1), Holding([FIRST]))])
  const TWO: Box :=
    TAKEN.(queue := Queue([SECOND], false), calls := [Call(Some(1), Holding([FIRST])), Call(Some(2), Called)], pushed := [FIRST, SECOND])
  const HELD: Box :=
    TWO.(queue := Queue([], false), calls := [Call(Some(1), Holding([FIRST])), Call(Some(2), Holding([SECOND]))])
  const BACK: Box :=
    HELD.(queue := Queue([FIRST], false), calls := [Call(Some(1), Over), Call(Some(2), Holding([SECOND]))], refused := {FIRST})

  lemma FirstTaken()
    ensures Enabled(EMPTY, Push(FIRST, Some(1))) && Next(EMPTY, Push(FIRST, Some(1))) == ONE
    ensures Enabled(ONE, TryTake(0)) && Next(ONE, TryTake(0)) == TAKEN
  {
  }

  lemma SecondTaken()
    ensures Enabled(TAKEN, Push(SECOND, Some(2))) && Next(TAKEN, Push(SECOND, Some(2))) == TWO
    ensures Enabled(TWO, TryTake(1)) && Next(TWO, TryTake(1)) == HELD
  {
  }

  lemma BothRefused()
    ensures Enabled(HELD, Woke(0, false)) && Next(HELD, Woke(0, false)) == BACK
    ensures Enabled(BACK, Woke(1, false)) && Jumps(BACK, Woke(1, false))
    ensures Next(BACK, Woke(1, false)).queue.items == [SECOND, FIRST]
  {
    assert FIRST in BACK.queue.items && SECOND in BACK.calls[1].pc.items;
    assert !Older(BACK.pushed, SECOND, FIRST);
  }

  /** Two children of an idle root end and open a call each; both calls are refused, and the second notice is queued
    before the first. */
  lemma RefusedTwiceJumps()
    ensures var events := [Push(FIRST, Some(1)), TryTake(0), Push(SECOND, Some(2)), TryTake(1), Woke(0, false), Woke(1, false)];
      Possible(EMPTY, events) && After(EMPTY, events).queue.items == [SECOND, FIRST]
  {
    FirstTaken();
    SecondTaken();
    BothRefused();
    hide *;
    var last: seq<Event> := [Woke(1, false)];
    Ends(BACK, Woke(1, false));
    Follow(HELD, Woke(0, false), last);
    Follow(TWO, TryTake(1), [Woke(0, false)] + last);
    Follow(TAKEN, Push(SECOND, Some(2)), [TryTake(1)] + ([Woke(0, false)] + last));
    Follow(ONE, TryTake(0), [Push(SECOND, Some(2))] + ([TryTake(1)] + ([Woke(0, false)] + last)));
    Follow(EMPTY, Push(FIRST, Some(1)), [TryTake(0)] + ([Push(SECOND, Some(2))] + ([TryTake(1)] + ([Woke(0, false)] + last))));
    assert [Push(FIRST, Some(1))] + ([TryTake(0)] + ([Push(SECOND, Some(2))] + ([TryTake(1)] + ([Woke(0, false)] + last))))
      == [Push(FIRST, Some(1)), TryTake(0), Push(SECOND, Some(2)), TryTake(1), Woke(0, false), Woke(1, false)];
  }

  lemma Ends(b: Box, e: Event)
    ensures Possible(b, [e]) <==> Enabled(b, e)
    ensures Possible(b, [e]) ==> After(b, [e]) == Next(b, e)
  {
    Follow(b, e, []);
    assert [e] + [] == [e];
  }
}
