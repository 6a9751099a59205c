/** The relay's mailbox: a bounded queue of numbered events with byte accounting, read by acknowledging the
  last number seen, and an alarm that drops what nobody took in a day. */
module Mailbox {
  import opened Wrappers

  const MAX_EVENTS: nat := 1000
  const MAX_BYTES: nat := 5 * 1024 * 1024
  const TTL: nat := 24 * 60 * 60 * 1000
  const TAKE: nat := 100

  datatype Event = Event(seqNo: nat, body: nat, at: nat, size: nat)

  datatype Answer = NotSetUp | BadSignature | Full | Accepted

  /** What storage holds; the events in the order of their numbers, as listing sorts them. */
  datatype Box = Box(configured: bool, last: nat, bytes: int, events: seq<Event>, alarm: Option<nat>)

  const EMPTY: Box := Box(false, 0, 0, [], None)

  function Max(a: int, b: int): int {
    if a >= b then a else b
  }

  function Sum(es: seq<Event>): nat {
    if es == [] then 0 else Sum(es[..|es| - 1]) + es[|es| - 1].size
  }

  datatype Test = NewerThan(after: int) | InTime(now: nat) | Late(now: nat) {
    predicate Passes(e: Event) {
      match this
      case NewerThan(after) => e.seqNo > after
      case InTime(now) => e.at + TTL > now
      case Late(now) => e.at + TTL <= now
    }
  }

  function Filter(es: seq<Event>, t: Test): (r: seq<Event>)
    ensures |r| <= |es| && forall e :: e in r <==> e in es && t.Passes(e)
  {
    if es == [] then []
    else
      var rest, last := Filter(es[..|es| - 1], t), es[|es| - 1];
      if t.Passes(last) then rest + [last] else rest
  }

  // ---------------------------------------------------------------- what each operation does

  function PutReply(b: Box, signed: bool, size: nat): Answer {
    if !b.configured then NotSetUp
    else if !signed then BadSignature
    else if |b.events| >= MAX_EVENTS || b.bytes + size > MAX_BYTES then Full
    else Accepted
  }

  function AfterPut(b: Box, signed: bool, body: nat, size: nat, now: nat): Box {
    if PutReply(b, signed, size) != Accepted then b
    else
      b.(last := b.last + 1, bytes := b.bytes + size, events := b.events + [Event(b.last + 1, body, now, size)],
         alarm := if b.alarm.None? then Some(now + TTL) else b.alarm)
  }

  /** How many events lead the list before one that is newer than `after`. */
  function Acked(es: seq<Event>, after: int): (k: nat)
    ensures k <= |es| && (k < |es| ==> es[k].seqNo > after)
    ensures forall i :: 0 <= i < k ==> es[i].seqNo <= after
  {
    if es == [] || es[0].seqNo > after then 0 else 1 + Acked(es[1..], after)
  }

  /** A take deletes up to the first newer event. */
  function AfterTake(b: Box, after: int): Box {
    var k := Acked(b.events, after);
    b.(events := b.events[k..], bytes := Max(0, b.bytes - Sum(b.events[..k])))
  }

  /** And returns the first hundred newer ones. */
  function Page(es: seq<Event>, after: int): seq<Event> {
    var rest := Filter(es, NewerThan(after));
    if |rest| <= TAKE then rest else rest[..TAKE]
  }

  /** The alarm deletes what is late and waits for the first of the rest. */
  function AfterAlarm(b: Box, now: nat): Box {
    var kept := Filter(b.events, InTime(now));
    b.(events := kept, bytes := Max(0, b.bytes - Sum(Filter(b.events, Late(now)))),
       alarm := if kept == [] then None else Some(kept[0].at + TTL))
  }

  class Store {
    var configured: bool
    var last: nat
    var bytes: int
    var events: seq<Event>
    var alarm: Option<nat>

    function Held(): Box
      reads this
    {
      Box(configured, last, bytes, events, alarm)
    }

    constructor ()
      ensures Held() == EMPTY
    {
      configured, last, bytes, events, alarm := false, 0, 0, [], None;
    }

    method Configure()
      modifies this
      ensures Held() == old(Held()).(configured := true)
    {
      configured := true;
    }

    method Put(signed: bool, body: nat, size: nat, now: nat) returns (r: Answer)
      modifies this
      ensures Held() == AfterPut(old(Held()), signed, body, size, now) && r == PutReply(old(Held()), signed, size)
    {
      if !configured {
        return NotSetUp;
      }
      if !signed {
        return BadSignature;
      }
      if |events| >= MAX_EVENTS || bytes + size > MAX_BYTES {
        return Full;
      }
      last := last + 1;
      bytes := bytes + size;
      events := events + [Event(last, body, now, size)];
      if alarm.None? {
        alarm := Some(now + TTL);
      }
      return Accepted;
    }

    method Take(after: int) returns (page: seq<Event>)
      modifies this
      ensures Held() == AfterTake(old(Held()), after) && page == Page(old(Held()).events, after)
    {
      hide Filter, AfterTake;
      var all := events;
      DropAcked(after);
      var rest := Filter(all, NewerThan(after));
      page := if |rest| <= TAKE then rest else rest[..TAKE];
    }

    /** The deleting loop of a take. */
    method DropAcked(after: int)
      modifies this`events, this`bytes
      ensures Held() == AfterTake(old(Held()), after)
    {
      hide Sum, Acked;
      var all, left := events, bytes;
      var k := 0;
      TakeStarts(all);
      while k < |all| && all[k].seqNo <= after
        invariant 0 <= k <= |all| && events == all[k..] && left == bytes - Sum(all[..k])
        invariant Acked(all, after) == k + Acked(all[k..], after)
        invariant bytes == old(bytes)
      {
        TakeStep(all, after, k);
        left := left - all[k].size;
        k := k + 1;
        events := all[k..];
      }
      TakeEnds(all, after, k);
      bytes := Max(0, left);
    }

    method Alarm(now: nat)
      modifies this
      ensures Held() == AfterAlarm(old(Held()), now)
    {
      hide Filter, Sum;
      var all, left := events, bytes;
      var next: Option<nat> := None;
      events := [];
      var k := 0;
      AlarmStarts(all, now);
      while k < |all|
        invariant 0 <= k <= |all|
        invariant events == Filter(all[..k], InTime(now)) && left == bytes - Sum(Filter(all[..k], Late(now)))
        invariant next == if events == [] then None else Some(events[0].at + TTL)
        invariant configured == old(configured) && last == old(last) && bytes == old(bytes)
      {
        AlarmStep(all, now, k);
        if all[k].at + TTL <= now {
          left := left - all[k].size;
        } else {
          events := events + [all[k]];
          if next.None? {
            next := Some(all[k].at + TTL);
          }
        }
        k := k + 1;
      }
      assert all[..k] == all;
      bytes := Max(0, left);
      alarm := next;
    }
  }

  lemma SumSnoc(es: seq<Event>, e: Event)
    ensures Sum(es + [e]) == Sum(es) + e.size
  {
    assert (es + [e])[..|es|] == es;
  }

  lemma TakeStarts(all: seq<Event>)
    ensures all[0..] == all && all[..0] == [] && Sum(all[..0]) == 0
  {
  }

  lemma TakeStep(all: seq<Event>, after: int, k: nat)
    requires k < |all| && all[k].seqNo <= after
    ensures Sum(all[..k + 1]) == Sum(all[..k]) + all[k].size
    ensures Acked(all[k..], after) == 1 + Acked(all[k + 1..], after)
  {
    assert all[k..][1..] == all[k + 1..] && all[..k + 1][..k] == all[..k];
  }

  lemma TakeEnds(all: seq<Event>, after: int, k: nat)
    requires k <= |all| && (k < |all| ==> all[k].seqNo > after)
    ensures Acked(all[k..], after) == 0
  {
  }

  lemma AlarmStarts(all: seq<Event>, now: nat)
    ensures Filter(all[..0], InTime(now)) == [] && Sum(Filter(all[..0], Late(now))) == 0
  {
  }

  lemma AlarmStep(all: seq<Event>, now: nat, k: nat)
    requires k < |all|
    ensures var late := all[k].at + TTL <= now;
      && Filter(all[..k + 1], InTime(now)) == Filter(all[..k], InTime(now)) + (if late then [] else [all[k]])
      && Sum(Filter(all[..k + 1], Late(now))) == Sum(Filter(all[..k], Late(now))) + if late then all[k].size else 0
  {
    assert all[..k + 1][..k] == all[..k];
    SumSnoc(Filter(all[..k], Late(now)), all[k]);
  }

  // ---------------------------------------------------------------- what every run keeps

  ghost predicate Ascending(es: seq<Event>) {
    forall i, j :: 0 <= i < j < |es| ==> es[i].seqNo < es[j].seqNo && es[i].at <= es[j].at
  }

  ghost predicate Given(es: seq<Event>, last: nat, now: nat) {
    forall e :: e in es ==> 0 < e.seqNo <= last && e.at <= now
  }

  /** An alarm is set, no later than anything's expiry. */
  ghost predicate AlarmSet(alarm: Option<nat>, es: seq<Event>, now: nat) {
    && (alarm.Some? ==> alarm.value <= now + TTL)
    && forall e :: e in es ==> alarm.Some? && alarm.value <= e.at + TTL
  }

  ghost predicate Counted(bytes: int, es: seq<Event>) {
    bytes == Sum(es) <= MAX_BYTES && |es| <= MAX_EVENTS
  }

  ghost predicate Sound(b: Box, now: nat) {
    Counted(b.bytes, b.events) && Ascending(b.events) && Given(b.events, b.last, now) && AlarmSet(b.alarm, b.events, now)
  }

  lemma {:induction false} FilterAscends(es: seq<Event>, t: Test)
    requires Ascending(es)
    ensures Ascending(Filter(es, t))
  {
    if es != [] {
      var init, last := es[..|es| - 1], es[|es| - 1];
      FilterAscends(init, t);
      var r := Filter(init, t);
      forall i | 0 <= i < |r|
        ensures r[i].seqNo < last.seqNo && r[i].at <= last.at
      {
        assert r[i] in init;
      }
    }
  }

  lemma {:induction false} FilterSums(es: seq<Event>, now: nat)
    ensures Sum(Filter(es, InTime(now))) + Sum(Filter(es, Late(now))) == Sum(es)
  {
    if es != [] {
      var init, last := es[..|es| - 1], es[|es| - 1];
      FilterSums(init, now);
      SumSnoc(Filter(init, InTime(now)), last);
      SumSnoc(Filter(init, Late(now)), last);
    }
  }

  lemma {:induction false} SumSplits(es: seq<Event>, k: nat)
    requires k <= |es|
    ensures Sum(es[..k]) + Sum(es[k..]) == Sum(es)
    decreases |es|
  {
    if k < |es| {
      var last := |es| - 1;
      SumSplits(es[..last], k);
      assert es[..last][..k] == es[..k] && es[..last][k..] == es[k..][..last - k];
    } else {
      assert es[..k] == es && es[k..] == [];
    }
  }

  lemma {:induction false} FilterIsSuffix(es: seq<Event>, t: Test, m: nat)
    requires m <= |es| && forall i :: 0 <= i < |es| ==> (t.Passes(es[i]) <==> m <= i)
    ensures Filter(es, t) == es[m..]
    decreases |es|
  {
    if m < |es| {
      var init := es[..|es| - 1];
      FilterIsSuffix(init, t, m);
      assert es[m..] == init[m..] + [es[|es| - 1]];
    } else {
      FilterIsNothing(es, t);
    }
  }

  lemma {:induction false} FilterIsNothing(es: seq<Event>, t: Test)
    requires forall i :: 0 <= i < |es| ==> !t.Passes(es[i])
    ensures Filter(es, t) == []
  {
    if es != [] {
      FilterIsNothing(es[..|es| - 1], t);
    }
  }

  /** As numbers ascend, what a take leaves is what is newer. */
  lemma DropIsNewer(b: Box, after: int)
    requires Ascending(b.events)
    ensures AfterTake(b, after).events == Filter(b.events, NewerThan(after))
  {
    var es, m := b.events, Acked(b.events, after);
    assert forall i :: m <= i < |es| ==> es[m].seqNo <= es[i].seqNo;
    hide Acked, Ascending, Filter;
    FilterIsSuffix(es, NewerThan(after), m);
  }

  lemma PutAscends(es: seq<Event>, e: Event)
    requires Ascending(es) && forall x :: x in es ==> x.seqNo < e.seqNo && x.at <= e.at
    ensures Ascending(es + [e])
  {
    forall i, j | 0 <= i < j < |es + [e]|
      ensures (es + [e])[i].seqNo < (es + [e])[j].seqNo && (es + [e])[i].at <= (es + [e])[j].at
    {
      assert es[i] in es;
    }
  }

  lemma PutIsGiven(es: seq<Event>, e: Event, last: nat, clock: nat, now: nat)
    requires Ascending(es) && Given(es, last, clock) && clock <= now && e.seqNo == last + 1 && e.at == now
    ensures Ascending(es + [e]) && Given(es + [e], last + 1, now)
  {
    PutAscends(es, e);
    hide Ascending;
  }

  lemma PutSetsAlarm(alarm: Option<nat>, es: seq<Event>, e: Event, clock: nat, now: nat)
    requires AlarmSet(alarm, es, clock) && clock <= now && e.at == now
    ensures AlarmSet(if alarm.None? then Some(now + TTL) else alarm, es + [e], now)
  {
  }

  /** Time passing changes nothing. */
  lemma Later(b: Box, clock: nat, now: nat)
    requires Sound(b, clock) && clock <= now
    ensures Sound(b, now)
  {
    hide Counted, Ascending;
  }

  lemma PutCounts(bytes: int, es: seq<Event>, e: Event)
    requires Counted(bytes, es) && |es| < MAX_EVENTS && bytes + e.size <= MAX_BYTES
    ensures Counted(bytes + e.size, es + [e])
  {
    SumSnoc(es, e);
  }

  lemma PutGives(b: Box, signed: bool, body: nat, size: nat, now: nat)
    ensures var c := AfterPut(b, signed, body, size, now);
      if PutReply(b, signed, size) == Accepted
      then
        && |b.events| < MAX_EVENTS && b.bytes + size <= MAX_BYTES && c.last == b.last + 1 && c.bytes == b.bytes + size
        && c.events == b.events + [Event(b.last + 1, body, now, size)]
        && c.alarm == if b.alarm.None? then Some(now + TTL) else b.alarm
      else c == b
  {
  }

  /** A put is accepted exactly when the mailbox is set up, the body is signed, and there is room: under a thousand events
    and five mebibytes. The first of what is missing is the answer. */
  lemma PutReplyIs(b: Box, signed: bool, size: nat)
    ensures var room := |b.events| < 1_000 && b.bytes + size <= 5_242_880;
      && (PutReply(b, signed, size) == NotSetUp <==> !b.configured)
      && (PutReply(b, signed, size) == BadSignature <==> b.configured && !signed)
      && (PutReply(b, signed, size) == Full <==> b.configured && signed && !room)
      && (PutReply(b, signed, size) == Accepted <==> b.configured && signed && room)
  {
  }

  /** An event is kept for a day from its put, and the alarm that drops it is set for then. */
  lemma KeptForADay(b: Box, body: nat, size: nat, now: nat, later: nat)
    requires b.events == [] && b.alarm == None && PutReply(b, true, size) == Accepted
    ensures var full, e := AfterPut(b, true, body, size, now), Event(b.last + 1, body, now, size);
      && full.events == [e] && full.alarm == Some(now + 86_400_000)
      && AfterAlarm(full, later).events == (if later < now + 86_400_000 then [e] else [])
      && AfterAlarm(full, later).alarm == (if later < now + 86_400_000 then Some(now + 86_400_000) else None)
  {
    var e := Event(b.last + 1, body, now, size);
    var one: seq<Event> := [e];
    assert b.events + [e] == one && one[..0] == [];
    assert Filter(one[..0], InTime(later)) == [];
  }

  /** What is newer is what has a greater number, and a page is the first hundred of it, in order. */
  lemma {:induction false} FilterIs(es: seq<Event>, t: Test, k: nat)
    requires k < |es|
    ensures var r, at := Filter(es, t), |Filter(es[..k], t)|;
      if t.Passes(es[k]) then at < |r| && r[at] == es[k] else |Filter(es[..k + 1], t)| == at
    decreases |es|
  {
    var last := |es| - 1;
    if k < last {
      FilterIs(es[..last], t, k);
      assert es[..last][..k] == es[..k] && es[..last][..k + 1] == es[..k + 1];
    } else {
      assert es[..k + 1] == es;
    }
  }

  lemma PageIs(es: seq<Event>, after: int)
    ensures var page, newer := Page(es, after), Filter(es, NewerThan(after));
      && (forall e :: e in newer <==> e in es && e.seqNo > after)
      && |page| == (if |newer| <= 100 then |newer| else 100)
      && forall i :: 0 <= i < |page| ==> page[i] == newer[i]
  {
  }

  lemma PutKeeps(b: Box, signed: bool, body: nat, size: nat, clock: nat, now: nat)
    requires Sound(b, clock) && clock <= now
    ensures Sound(AfterPut(b, signed, body, size, now), now)
  {
    hide Counted, Given, AlarmSet, Ascending, AfterPut, PutReply;
    var e := Event(b.last + 1, body, now, size);
    PutGives(b, signed, body, size, now);
    if PutReply(b, signed, size) == Accepted {
      PutIsGiven(b.events, e, b.last, clock, now);
      PutSetsAlarm(b.alarm, b.events, e, clock, now);
      PutCounts(b.bytes, b.events, e);
    } else {
      Later(b, clock, now);
    }
  }

  lemma FewerKeep(es: seq<Event>, fewer: seq<Event>, last: nat, alarm: Option<nat>, now: nat)
    requires Given(es, last, now) && AlarmSet(alarm, es, now) && forall e :: e in fewer ==> e in es
    ensures Given(fewer, last, now) && AlarmSet(alarm, fewer, now)
  {
  }

  /** A take leaves exactly the newer events, and its subtraction never goes below zero. */
  lemma TakeKeeps(b: Box, after: int, now: nat)
    requires Sound(b, now)
    ensures Sound(AfterTake(b, after), now) && AfterTake(b, after).events == Filter(b.events, NewerThan(after))
    ensures b.bytes - Sum(b.events[..Acked(b.events, after)]) >= 0
  {
    SumSplits(b.events, Acked(b.events, after));
    DropIsNewer(b, after);
    FilterAscends(b.events, NewerThan(after));
    FewerKeep(b.events, Filter(b.events, NewerThan(after)), b.last, b.alarm, now);
    hide Sum, Filter, Ascending, Acked, Given, AlarmSet;
  }

  /** So does the alarm with the events in time. */
  lemma AlarmKeeps(b: Box, clock: nat, now: nat)
    requires Sound(b, clock) && clock <= now
    ensures Sound(AfterAlarm(b, now), now)
    ensures b.bytes - Sum(Filter(b.events, Late(now))) >= 0
  {
    Later(b, clock, now);
    var kept := Filter(b.events, InTime(now));
    FilterSums(b.events, now);
    FilterAscends(b.events, InTime(now));
    FewerKeep(b.events, kept, b.last, b.alarm, now);
    AlarmFromFirst(kept, b.last, now);
    hide Sum, Filter, Ascending, Given, AlarmSet;
  }

  lemma AlarmFromFirst(es: seq<Event>, last: nat, now: nat)
    requires Ascending(es) && Given(es, last, now)
    ensures AlarmSet(if es == [] then None else Some(es[0].at + TTL), es, now)
  {
    FirstIsOldest(es);
    assert es != [] ==> es[0] in es;
  }

  lemma FirstIsOldest(es: seq<Event>)
    requires Ascending(es)
    ensures forall e :: e in es ==> es[0].at <= e.at && es[0].seqNo <= e.seqNo
  {
  }
}
