/** The mailbox with the client that empties it: it asks for what follows the last number it has, and an answer
  may get lost on the way. */
module MailboxClient {
  import opened Mailbox

  /** `log` is everything ever accepted, `expired` the numbers the alarm dropped, `last` and `got` the client's. */
  datatype State = State(box: Box, clock: nat, log: seq<Event>, expired: set<nat>, last: nat, got: seq<Event>)

  datatype Act =
    | Configure
    | Put(signed: bool, body: nat, size: nat, wait: nat)
    | Take(lost: bool)
    | Alarm(wait: nat)

  const START: State := State(Mailbox.EMPTY, 0, [], {}, 0, [])

  function Numbers(es: seq<Event>): set<nat> {
    set e | e in es :: e.seqNo
  }

  function LastOf(page: seq<Event>, last: nat): nat {
    if page == [] then last else page[|page| - 1].seqNo
  }

  function Next(s: State, act: Act): State {
    match act
    case Configure => s.(box := s.box.(configured := true))
    case Put(signed, body, size, wait) =>
      var now := s.clock + wait;
      var accepted := PutReply(s.box, signed, size) == Accepted;
      s.(box := AfterPut(s.box, signed, body, size, now), clock := now,
         log := if accepted then s.log + [Event(s.box.last + 1, body, now, size)] else s.log)
    case Take(lost) =>
      var page := Page(s.box.events, s.last);
      var t := s.(box := AfterTake(s.box, s.last));
      if lost then t else t.(last := LastOf(page, s.last), got := s.got + page)
    case Alarm(wait) =>
      var now := s.clock + wait;
      s.(box := AfterAlarm(s.box, now), clock := now, expired := s.expired + Numbers(Filter(s.box.events, Late(now))))
  }

  function After(s: State, acts: seq<Act>): State
    decreases |acts|
  {
    if acts == [] then s else After(Next(s, acts[0]), acts[1..])
  }

  // ---------------------------------------------------------------- what every run keeps

  /** Numbers are given in order, from 1, each once. */
  ghost predicate Numbered(log: seq<Event>) {
    forall i :: 0 <= i < |log| ==> log[i].seqNo == i + 1
  }

  ghost predicate Logged(log: seq<Event>, es: seq<Event>) {
    forall e :: e in es ==> 0 < e.seqNo <= |log| && log[e.seqNo - 1] == e
  }

  /** What the client hasn't got is still there, or expired. */
  ghost predicate Ahead(log: seq<Event>, stored: seq<Event>, expired: set<nat>, last: nat) {
    forall i :: last <= i < |log| ==> log[i] in stored || i + 1 in expired
  }

  /** Up to the last number it has, it got everything that didn't expire. */
  ghost predicate Behind(log: seq<Event>, got: seq<Event>, expired: set<nat>, last: nat) {
    last <= |log| && forall i :: 0 <= i < last ==> log[i] in got || i + 1 in expired
  }

  /** Once, and in order. */
  ghost predicate InOrder(got: seq<Event>, last: nat) {
    && (forall i, j :: 0 <= i < j < |got| ==> got[i].seqNo < got[j].seqNo)
    && forall e :: e in got ==> e.seqNo <= last
  }

  ghost predicate OldEnough(log: seq<Event>, expired: set<nat>, clock: nat) {
    forall n :: n in expired ==> 0 < n <= |log| && log[n - 1].at + TTL <= clock
  }

  ghost predicate Delivery(log: seq<Event>, stored: seq<Event>, got: seq<Event>, expired: set<nat>, last: nat, clock: nat) {
    && Numbered(log) && Logged(log, stored) && Logged(log, got)
    && Ahead(log, stored, expired, last) && Behind(log, got, expired, last)
    && InOrder(got, last) && OldEnough(log, expired, clock)
  }

  ghost predicate Inv(s: State) {
    && Sound(s.box, s.clock) && |s.log| == s.box.last
    && Delivery(s.log, s.box.events, s.got, s.expired, s.last, s.clock)
  }

  lemma PutLogs(log: seq<Event>, stored: seq<Event>, got: seq<Event>, expired: set<nat>, last: nat, clock: nat, e: Event)
    requires Delivery(log, stored, got, expired, last, clock) && e.seqNo == |log| + 1 && e.at >= clock
    ensures Delivery(log + [e], stored + [e], got, expired, last, e.at)
  {
    hide InOrder;
    assert forall i :: 0 <= i < |log| ==> (log + [e])[i] == log[i];
    assert e in stored + [e];
  }

  lemma WaitDelivers(log: seq<Event>, stored: seq<Event>, got: seq<Event>, expired: set<nat>, last: nat, clock: nat, now: nat)
    requires Delivery(log, stored, got, expired, last, clock) && clock <= now
    ensures Delivery(log, stored, got, expired, last, now)
  {
    hide Numbered, Logged, Ahead, Behind, InOrder;
  }

  lemma RefusedKeeps(s: State, wait: nat)
    requires Inv(s)
    ensures Inv(s.(clock := s.clock + wait))
  {
    Later(s.box, s.clock, s.clock + wait);
    hide Sound;
    WaitDelivers(s.log, s.box.events, s.got, s.expired, s.last, s.clock, s.clock + wait);
    hide Delivery;
  }

  lemma AcceptedKeeps(s: State, e: Event, box: Box)
    requires Inv(s) && Sound(box, e.at) && e.seqNo == |s.log| + 1 && e.at >= s.clock
    requires box.last == e.seqNo && box.events == s.box.events + [e]
    ensures Inv(s.(box := box, clock := e.at, log := s.log + [e]))
  {
    hide Sound;
    PutLogs(s.log, s.box.events, s.got, s.expired, s.last, s.clock, e);
    hide Delivery;
  }

  lemma PutKeeps(s: State, signed: bool, body: nat, size: nat, wait: nat)
    requires Inv(s)
    ensures Inv(Next(s, Put(signed, body, size, wait)))
  {
    var now := s.clock + wait;
    var e := Event(s.box.last + 1, body, now, size);
    var box := AfterPut(s.box, signed, body, size, now);
    Mailbox.PutKeeps(s.box, signed, body, size, s.clock, now);
    NextPut(s, signed, body, size, wait);
    hide Next, AfterPut, Sound, Delivery;
    if PutReply(s.box, signed, size) == Accepted {
      AcceptedKeeps(s, e, box);
    } else {
      RefusedKeeps(s, wait);
    }
  }

  lemma NextPut(s: State, signed: bool, body: nat, size: nat, wait: nat)
    ensures var now, t := s.clock + wait, Next(s, Put(signed, body, size, wait));
      var box, e := AfterPut(s.box, signed, body, size, now), Event(s.box.last + 1, body, now, size);
      if PutReply(s.box, signed, size) == Accepted
      then t == s.(box := box, clock := now, log := s.log + [e]) && box.last == e.seqNo && box.events == s.box.events + [e]
      else t == s.(clock := now)
  {
  }

  /** A page holds the newer events up to its last, in order. */
  lemma PageCovers(es: seq<Event>, after: nat)
    requires Ascending(es)
    ensures var page := Page(es, after);
      && Ascending(page)
      && (forall e :: e in page ==> e in es && after < e.seqNo <= LastOf(page, after))
      && (forall e :: e in es && after < e.seqNo <= LastOf(page, after) ==> e in page)
  {
    var rest, page := Filter(es, NewerThan(after)), Page(es, after);
    FilterAscends(es, NewerThan(after));
    if page != [] {
      PrefixCovers(rest, |page|);
      assert page == rest[..|page|];
      hide Ascending;
    }
  }

  lemma PrefixCovers(rest: seq<Event>, n: nat)
    requires Ascending(rest) && 0 < n <= |rest|
    ensures Ascending(rest[..n])
    ensures forall e :: e in rest[..n] ==> e in rest && e.seqNo <= rest[n - 1].seqNo
    ensures forall e :: e in rest && e.seqNo <= rest[n - 1].seqNo ==> e in rest[..n]
  {
    forall e | e in rest && e.seqNo <= rest[n - 1].seqNo
      ensures e in rest[..n]
    {
      var i :| 0 <= i < |rest| && rest[i] == e;
      assert i < n;
      assert rest[..n][i] == e;
    }
  }

  lemma PageDelivers(log: seq<Event>, stored: seq<Event>, got: seq<Event>, expired: set<nat>, last: nat)
    requires Ascending(stored) && Numbered(log) && Logged(log, stored) && Logged(log, got)
    requires Ahead(log, stored, expired, last) && Behind(log, got, expired, last)
    ensures var page := Page(stored, last);
      var last' := LastOf(page, last);
      && last <= last' && Logged(log, got + page)
      && Ahead(log, stored, expired, last') && Behind(log, got + page, expired, last')
  {
    PageCovers(stored, last);
    var page := Page(stored, last);
    hide Page, Ascending;
    if page != [] {
      assert page[|page| - 1] in page;
    }
    var last' := LastOf(page, last);
    forall i | last <= i < last'
      ensures log[i] in got + page || i + 1 in expired
    {
      assert log[i] in stored ==> log[i] in page;
    }
  }

  lemma PageOrders(got: seq<Event>, page: seq<Event>, last: nat)
    requires InOrder(got, last) && Ascending(page)
    requires forall e :: e in page ==> last < e.seqNo <= LastOf(page, last)
    ensures last <= LastOf(page, last) && InOrder(got + page, LastOf(page, last))
  {
    if page != [] {
      assert page[|page| - 1] in page;
    }
    var all := got + page;
    forall i, j | 0 <= i < j < |all|
      ensures all[i].seqNo < all[j].seqNo
    {
      if i < |got| <= j {
        assert all[i] in got && all[j] in page;
      }
    }
  }

  lemma NewerStay(log: seq<Event>, stored: seq<Event>, expired: set<nat>, last: nat, last': nat)
    requires Numbered(log) && Ahead(log, stored, expired, last') && last <= last'
    ensures Ahead(log, Filter(stored, NewerThan(last)), expired, last')
  {
  }

  lemma FewerLogged(log: seq<Event>, es: seq<Event>, t: Test)
    requires Logged(log, es)
    ensures Logged(log, Filter(es, t))
  {
  }

  lemma TakeDelivers(log: seq<Event>, stored: seq<Event>, got: seq<Event>, expired: set<nat>, last: nat, clock: nat)
    requires Ascending(stored) && Delivery(log, stored, got, expired, last, clock)
    ensures var page, left := Page(stored, last), Filter(stored, NewerThan(last));
      && Delivery(log, left, got, expired, last, clock)
      && Delivery(log, left, got + page, expired, LastOf(page, last), clock)
  {
    var page := Page(stored, last);
    FewerLogged(log, stored, NewerThan(last));
    PageDelivers(log, stored, got, expired, last);
    PageCovers(stored, last);
    PageOrders(got, page, last);
    NewerStay(log, stored, expired, last, last);
    NewerStay(log, stored, expired, last, LastOf(page, last));
    hide Numbered, Logged, Ahead, Behind, InOrder, OldEnough, Filter, Page, Ascending;
  }

  lemma NextTake(s: State, lost: bool)
    ensures var page, box := Page(s.box.events, s.last), AfterTake(s.box, s.last);
      Next(s, Take(lost)) ==
        if lost then s.(box := box) else s.(box := box, last := LastOf(page, s.last), got := s.got + page)
  {
  }

  lemma TakeKeeps(s: State, lost: bool)
    requires Inv(s)
    ensures Inv(Next(s, Take(lost)))
  {
    hide Next, Delivery, Sound, Filter, Page, LastOf;
    NextTake(s, lost);
    SoundTake(s.box, s.last, s.clock);
    hide AfterTake;
    TakeDelivers(s.log, s.box.events, s.got, s.expired, s.last, s.clock);
  }

  lemma SoundTake(b: Box, after: int, now: nat)
    requires Sound(b, now)
    ensures var c := AfterTake(b, after);
      Sound(c, now) && Ascending(b.events) && c.last == b.last && c.events == Filter(b.events, NewerThan(after))
  {
    hide Filter;
    Mailbox.TakeKeeps(b, after, now);
  }

  lemma LateExpire(log: seq<Event>, stored: seq<Event>, expired: set<nat>, last: nat, clock: nat, now: nat)
    requires Numbered(log) && Logged(log, stored) && Ahead(log, stored, expired, last) && OldEnough(log, expired, clock)
    requires clock <= now
    ensures var more := expired + Numbers(Filter(stored, Late(now)));
      Ahead(log, Filter(stored, InTime(now)), more, last) && OldEnough(log, more, now)
  {
    var more := expired + Numbers(Filter(stored, Late(now)));
    forall i | last <= i < |log|
      ensures log[i] in Filter(stored, InTime(now)) || i + 1 in more
    {
      if log[i] in stored && log[i] !in Filter(stored, InTime(now)) {
        assert log[i] in Filter(stored, Late(now));
      }
    }
  }

  lemma AlarmDelivers(log: seq<Event>, stored: seq<Event>, got: seq<Event>, expired: set<nat>, last: nat, clock: nat, now: nat)
    requires Delivery(log, stored, got, expired, last, clock) && clock <= now
    ensures Delivery(log, Filter(stored, InTime(now)), got, expired + Numbers(Filter(stored, Late(now))), last, now)
  {
    FewerLogged(log, stored, InTime(now));
    LateExpire(log, stored, expired, last, clock, now);
    hide Numbered, Logged, Ahead, OldEnough, Filter, Numbers, InOrder;
  }

  lemma AlarmKeeps(s: State, wait: nat)
    requires Inv(s)
    ensures Inv(Next(s, Alarm(wait)))
  {
    var now := s.clock + wait;
    hide Sound, Delivery, Filter, Numbers;
    Mailbox.AlarmKeeps(s.box, s.clock, now);
    AlarmDelivers(s.log, s.box.events, s.got, s.expired, s.last, s.clock, now);
  }

  lemma {:induction false} RunKeeps(s: State, acts: seq<Act>)
    requires Inv(s)
    ensures Inv(After(s, acts))
    decreases |acts|
  {
    if acts != [] {
      match acts[0] {
        case Configure =>
        case Put(signed, body, size, wait) => PutKeeps(s, signed, body, size, wait);
        case Take(lost) => TakeKeeps(s, lost);
        case Alarm(wait) => AlarmKeeps(s, wait);
      }
      hide Sound, Delivery, AfterPut, AfterTake, AfterAlarm;
      RunKeeps(Next(s, acts[0]), acts[1..]);
    }
  }

  /** In every run, whatever answers get lost: the byte count and the caps hold and the alarm is set in time,
    numbers are never given twice, and the client gets each accepted event once, in order and as it was stored,
    unless the alarm dropped it a day after it came. */
  lemma EveryEventOnce(acts: seq<Act>)
    ensures var s := After(START, acts);
      && Sound(s.box, s.clock) && Numbered(s.log)
      && (forall i :: 0 <= i < |s.log| ==>
            i + 1 in s.expired || (if i < s.last then s.log[i] in s.got else s.log[i] in s.box.events))
      && (forall i, j :: 0 <= i < j < |s.got| ==> s.got[i].seqNo < s.got[j].seqNo)
      && (forall e :: e in s.got ==> e in s.log)
      && (forall n :: n in s.expired ==> 0 < n <= |s.log| && s.log[n - 1].at + TTL <= s.clock)
  {
    RunKeeps(START, acts);
  }

  lemma PageProgresses(b: Box, last: nat, e: Event)
    requires Ascending(b.events) && e in b.events && e.seqNo > last
    ensures var k, page := Acked(b.events, last), Page(b.events, last);
      k < |b.events| && page != [] && last < LastOf(page, last) && b.events[k] in page
  {
    var stored, page := b.events, Page(b.events, last);
    DropIsNewer(b, last);
    PageCovers(stored, last);
    hide Ascending, Sum;
    assert e in Filter(stored, NewerThan(last));
    hide Filter;
    assert page[0] in page && page[|page| - 1] in page;
    assert stored[Acked(stored, last)..][0] == page[0];
  }

  /** And an answer that arrives carries the oldest event it doesn't have yet. */
  lemma TakesMakeProgress(s: State, e: Event)
    requires Inv(s) && e in s.box.events && e.seqNo > s.last
    ensures s.last < Next(s, Take(false)).last && |s.got| < |Next(s, Take(false)).got|
    ensures s.box.events[Acked(s.box.events, s.last)] in Next(s, Take(false)).got
  {
    PageProgresses(s.box, s.last, e);
    hide Inv, Page, Acked;
  }
}
