/** The relay's one-time slot: a window opened by the first take, one put in it, one read of it, an alarm that
  wipes it afterwards. A put checks, waits for its body and then writes, so other requests may come in between. */
module Slot {
  import opened Wrappers

  const OPEN_TTL: nat := 15 * 60 * 1000
  const VALUE_TTL: nat := 5 * 60 * 1000

  /** What storage holds. */
  datatype Cell = Cell(openUntil: Option<nat>, value: Option<nat>, used: bool, alarm: Option<nat>) {
    predicate Live(now: nat) {
      openUntil.Some? && openUntil.value > now
    }
  }

  const EMPTY: Cell := Cell(None, None, false, None)

  datatype Answer = Value(body: nat) | Opened | Waiting | Used | Stored | NotOpen | Taken

  function Min(a: nat, b: nat): nat {
    if a <= b then a else b
  }

  // ---------------------------------------------------------------- what each step does

  function TakeReply(c: Cell, now: nat): Answer {
    if !c.Live(now) then Opened
    else if c.used then Used
    else if c.value.None? then Waiting
    else Value(c.value.value)
  }

  function AfterTake(c: Cell, now: nat): Cell {
    if !c.Live(now) then Cell(Some(now + OPEN_TTL), None, false, Some(now + OPEN_TTL))
    else if c.used || c.value.None? then c
    else c.(value := None, used := true)
  }

  /** Why a put is refused, if it is; it is decided before the body is read. */
  function PutRefusal(c: Cell, now: nat): Option<Answer> {
    if !c.Live(now) then Some(NotOpen)
    else if c.used || c.value.Some? then Some(Taken)
    else None
  }

  /** The write of a put whose check was at `now` and saw the window's end at `seen`. */
  function AfterWrite(c: Cell, seen: nat, now: nat, body: nat): Cell {
    var until := Min(seen, now + VALUE_TTL);
    c.(openUntil := Some(until), value := Some(body), alarm := Some(until))
  }

  /** An alarm fires at its time or later. */
  function AfterAlarm(c: Cell, now: nat): Cell {
    if c.alarm.Some? && c.alarm.value <= now then EMPTY else c
  }

  class Store {
    var openUntil: Option<nat>
    var value: Option<nat>
    var used: bool
    var alarm: Option<nat>

    function Held(): Cell
      reads this
    {
      Cell(openUntil, value, used, alarm)
    }

    constructor ()
      ensures Held() == EMPTY
    {
      openUntil, value, used, alarm := None, None, false, None;
    }

    method DeleteAll()
      modifies this
      ensures openUntil == None && value == None && !used && alarm == old(alarm)
    {
      openUntil, value, used := None, None, false;
    }

    method Take(now: nat) returns (r: Answer)
      modifies this
      ensures Held() == AfterTake(old(Held()), now) && r == TakeReply(old(Held()), now)
    {
      var live := openUntil.Some? && openUntil.value > now;
      if live && used {
        return Used;
      }
      if !live {
        DeleteAll();
        openUntil := Some(now + OPEN_TTL);
        alarm := Some(now + OPEN_TTL);
        return Opened;
      }
      if value.None? {
        return Waiting;
      }
      r := Value(value.value);
      value := None;
      used := true;
    }

    /** A put up to reading its body: refused, or what it saw of the window. */
    method CheckPut(now: nat) returns (refused: Option<Answer>, seen: nat)
      ensures refused == PutRefusal(Held(), now) && (refused.None? ==> Held().openUntil == Some(seen))
    {
      var live := openUntil.Some? && openUntil.value > now;
      if !live {
        return Some(NotOpen), 0;
      }
      if used || value.Some? {
        return Some(Taken), 0;
      }
      return None, openUntil.value;
    }

    /** The rest of it. */
    method WritePut(seen: nat, now: nat, body: nat)
      modifies this
      ensures Held() == AfterWrite(old(Held()), seen, now, body)
    {
      value := Some(body);
      var until := Min(seen, now + VALUE_TTL);
      openUntil := Some(until);
      alarm := Some(until);
    }

    /** Called when the alarm's time has come. */
    method Alarm(now: nat)
      requires alarm.Some? && alarm.value <= now
      modifies this
      ensures Held() == AfterAlarm(old(Held()), now)
    {
      alarm := None;
      DeleteAll();
    }
  }

  // ---------------------------------------------------------------- the life of one value

  /** What a request is told, from what storage holds. */
  lemma AnswersAre(c: Cell, now: nat)
    ensures var live := c.openUntil.Some? && now < c.openUntil.value;
      && (TakeReply(c, now) == Opened <==> !live)
      && (TakeReply(c, now) == Used <==> live && c.used)
      && (TakeReply(c, now) == Waiting <==> live && !c.used && c.value.None?)
      && (forall body: nat :: TakeReply(c, now) == Value(body) <==> live && !c.used && c.value == Some(body))
      && (PutRefusal(c, now) == Some(NotOpen) <==> !live)
      && (PutRefusal(c, now) == Some(Taken) <==> live && (c.used || c.value.Some?))
      && (PutRefusal(c, now) == None <==> live && !c.used && c.value.None?)
  {
  }

  /** A slot opened at `start` takes a put for a quarter of an hour; the value is there for five minutes, but no longer
    than the slot, and is handed over once: until then a second take is told so, and after that the slot opens anew. */
  lemma LifeOfAValue(c: Cell, start: nat, check: nat, take: nat, later: nat, body: nat)
    requires TakeReply(c, start) == Opened && start <= check <= take <= later
    ensures var empty := AfterTake(c, start);
      var end := if check + 300_000 <= start + 900_000 then check + 300_000 else start + 900_000;
      var filled := AfterWrite(empty, start + 900_000, check, body);
      && (PutRefusal(empty, check) == None <==> check < start + 900_000)
      && (check < start + 900_000 ==> empty.openUntil == Some(start + 900_000) && TakeReply(empty, check) == Waiting)
      && TakeReply(filled, take) == (if take < end then Value(body) else Opened)
      && (take < end ==>
            && PutRefusal(filled, take) == Some(Taken)
            && TakeReply(AfterTake(filled, take), later) == (if later < end then Used else Opened)
            && PutRefusal(AfterTake(filled, take), later) == Some(if later < end then Taken else NotOpen))
  {
  }

  // ---------------------------------------------------------------- requests in any order

  /** A put whose check passed: what it saw and when, and how many openings and writes there had been. */
  datatype Pending = Pending(seen: nat, at: nat, openings: nat, writes: nat)

  /** The cell, the puts whose checks passed, which of them haven't written, and the count of openings and writes. */
  datatype Desk = Desk(cell: Cell, puts: seq<Pending>, open: set<nat>, openings: nat, writes: nat)

  const CLOSED: Desk := Desk(EMPTY, [], {}, 0, 0)

  /** `Check` and `Write` are the two parts of a put; `put` says whose write it is. */
  datatype Event = Take(now: nat) | Check(now: nat) | Write(now: nat, put: nat, body: nat) | Fire(now: nat)

  predicate Writes(d: Desk, e: Event) {
    e.Write? && e.put in d.open && e.put < |d.puts|
  }

  function Next(d: Desk, e: Event): Desk {
    match e
    case Take(now) =>
      d.(cell := AfterTake(d.cell, now), openings := if d.cell.Live(now) then d.openings else d.openings + 1)
    case Check(now) =>
      if PutRefusal(d.cell, now).Some? then d
      else
        d.(puts := d.puts + [Pending(d.cell.openUntil.value, now, d.openings, d.writes)], open := d.open + {|d.puts|})
    case Write(_, put, body) =>
      if !Writes(d, e) then d
      else
        var p := d.puts[put];
        d.(cell := AfterWrite(d.cell, p.seen, p.at, body), open := d.open - {put}, writes := d.writes + 1)
    case Fire(now) => d.(cell := AfterAlarm(d.cell, now))
  }

  function Reply(d: Desk, e: Event): Option<Answer> {
    match e
    case Take(now) => Some(TakeReply(d.cell, now))
    case Check(now) => PutRefusal(d.cell, now)
    case Write(_, _, _) => if Writes(d, e) then Some(Stored) else None
    case Fire(_) => None
  }

  /** The clock never goes back. */
  predicate Clock(es: seq<Event>, from: nat) {
    es == [] || (from <= es[0].now && Clock(es[1..], es[0].now))
  }

  // ---------------------------------------------------------------- one put, one read

  datatype Put = Put(body: nat, at: nat, opening: nat)

  /** What happened since the slot was last opened. */
  datatype Window = Window(start: Option<nat>, opening: nat, puts: seq<Put>, taken: seq<(nat, nat)>)

  const BEFORE: Window := Window(None, 0, [], [])

  function Note(d: Desk, e: Event, w: Window): Window {
    match e
    case Take(now) =>
      (match TakeReply(d.cell, now)
       case Opened => Window(Some(now), d.openings + 1, [], [])
       case Value(body) => w.(taken := w.taken + [(body, now)])
       case _ => w)
    case Write(_, put, body) =>
      if !Writes(d, e) then w else w.(puts := w.puts + [Put(body, d.puts[put].at, d.puts[put].openings)])
    case _ => w
  }

  /** Since an opening: one put and one read at most, the put made in it, the read of what was put, in time for
    both windows. */
  ghost predicate OneOfEach(w: Window) {
    && |w.puts| <= 1 && |w.taken| <= |w.puts|
    && (w.puts != [] ==>
          && w.start.Some? && w.puts[0].opening == w.opening
          && w.start.value <= w.puts[0].at < w.start.value + OPEN_TTL)
    && (w.taken != [] ==>
          && w.taken[0].0 == w.puts[0].body && w.puts[0].at <= w.taken[0].1
          && w.taken[0].1 < Min(w.puts[0].at + VALUE_TTL, w.start.value + OPEN_TTL))
  }

  /** At every moment of a run. */
  ghost predicate AlwaysOne(d: Desk, es: seq<Event>, w: Window)
    decreases |es|
  {
    OneOfEach(w) && (es != [] ==> AlwaysOne(Next(d, es[0]), es[1..], Note(d, es[0], w)))
  }

  /** Another put wrote, or a take opened the slot anew, since this write's check. */
  predicate Disturbed(d: Desk, e: Event) {
    Writes(d, e) && (d.puts[e.put].writes != d.writes || d.puts[e.put].openings != d.openings)
  }

  predicate Undisturbed(d: Desk, es: seq<Event>)
    decreases |es|
  {
    es == [] || (!Disturbed(d, es[0]) && Undisturbed(Next(d, es[0]), es[1..]))
  }

  /** While open, storage agrees with what happened in the window; the alarm is set for its end. */
  ghost predicate Agrees(c: Cell, w: Window, now: nat) {
    && c.alarm == c.openUntil
    && (c.Live(now) ==>
          && w.start.Some? && w.start.value <= now
          && (c.used <==> w.taken != [])
          && (c.value.Some? <==> w.puts != [] && w.taken == [])
          && (w.puts == [] ==> c.openUntil.value == w.start.value + OPEN_TTL)
          && (w.puts != [] ==> w.puts[0].at <= now && c.openUntil.value == Min(w.puts[0].at + VALUE_TTL, w.start.value + OPEN_TTL))
          && (c.value.Some? ==> c.value.value == w.puts[0].body))
  }

  /** A put checked in this opening before anything was written still finds the cell as it saw it, or wiped when
    its window was over. */
  ghost predicate Waits(c: Cell, p: Pending, w: Window, now: nat) {
    && c.value.None? && !c.used && w.taken == []
    && w.start.Some? && w.start.value <= p.at <= now && p.at < p.seen == w.start.value + OPEN_TTL
    && (c.openUntil == Some(p.seen) || (c.openUntil.None? && p.seen <= now))
  }

  ghost predicate Pendings(d: Desk, w: Window, now: nat) {
    && w.opening == d.openings
    && forall k :: 0 <= k < |d.puts| ==>
         && d.puts[k].openings <= d.openings
         && (d.puts[k].openings == d.openings ==> d.puts[k].writes + |w.puts| == d.writes)
         && (d.puts[k].openings == d.openings && w.puts == [] ==> Waits(d.cell, d.puts[k], w, now))
  }

  ghost predicate Inv(d: Desk, w: Window, now: nat) {
    OneOfEach(w) && Agrees(d.cell, w, now) && Pendings(d, w, now)
  }

  lemma TakeKeeps(d: Desk, now: nat, w: Window, clock: nat)
    requires Inv(d, w, clock) && clock <= now
    ensures Inv(Next(d, Take(now)), Note(d, Take(now), w), now)
  {
  }

  lemma CheckKeeps(d: Desk, now: nat, w: Window, clock: nat)
    requires Inv(d, w, clock) && clock <= now
    ensures Inv(Next(d, Check(now)), Note(d, Check(now), w), now)
  {
  }

  lemma FireKeeps(d: Desk, now: nat, w: Window, clock: nat)
    requires Inv(d, w, clock) && clock <= now
    ensures Inv(Next(d, Fire(now)), Note(d, Fire(now), w), now)
  {
  }

  lemma WriteKeeps(d: Desk, e: Event, w: Window, clock: nat)
    requires Inv(d, w, clock) && clock <= e.now && e.Write? && !Disturbed(d, e)
    ensures Inv(Next(d, e), Note(d, e, w), e.now)
  {
  }

  lemma DisturbedBreaks(d: Desk, e: Event, w: Window, clock: nat)
    requires Inv(d, w, clock) && Disturbed(d, e)
    ensures !OneOfEach(Note(d, e, w))
  {
  }

  lemma {:induction false} OneIffUndisturbed(d: Desk, es: seq<Event>, w: Window, clock: nat)
    requires Inv(d, w, clock) && Clock(es, clock)
    ensures AlwaysOne(d, es, w) <==> Undisturbed(d, es)
    decreases |es|
  {
    hide OneOfEach, Agrees, Pendings, Next, Note;
    assert OneOfEach(w) by {
      InvIsOne(d, w, clock);
    }
    if es != [] {
      var e := es[0];
      if Disturbed(d, e) {
        DisturbedBreaks(d, e, w, clock);
      } else {
        match e {
          case Take(now) => TakeKeeps(d, now, w, clock);
          case Check(now) => CheckKeeps(d, now, w, clock);
          case Write(_, _, _) => WriteKeeps(d, e, w, clock);
          case Fire(now) => FireKeeps(d, now, w, clock);
        }
        OneIffUndisturbed(Next(d, e), es[1..], Note(d, e, w), e.now);
      }
    }
  }

  lemma InvIsOne(d: Desk, w: Window, clock: nat)
    requires Inv(d, w, clock)
    ensures OneOfEach(w)
  {
  }

  /** In every run, at every moment at most one put and one read have succeeded since the last opening, the put was
    made in it and the read gave what was put in time, if and only if between a put's check and its write no other
    put writes and no take opens the slot. */
  lemma OncePerOpeningIff(es: seq<Event>, clock: nat)
    requires Clock(es, clock)
    ensures AlwaysOne(CLOSED, es, BEFORE) <==> Undisturbed(CLOSED, es)
  {
    OneIffUndisturbed(CLOSED, es, BEFORE, clock);
  }

  /** Every put writes right after its check. */
  predicate Whole(d: Desk, es: seq<Event>)
    decreases |es|
  {
    es == [] ||
    if es[0].Check? && PutRefusal(d.cell, es[0].now).None?
    then |es| >= 2 && es[1].Write? && es[1].put == |d.puts| && Whole(Next(Next(d, es[0]), es[1]), es[2..])
    else !es[0].Write? && Whole(Next(d, es[0]), es[1..])
  }

  /** So nothing goes wrong as long as no request comes while a body is read. */
  lemma {:induction false} WholeIsUndisturbed(d: Desk, es: seq<Event>)
    requires Whole(d, es)
    ensures Undisturbed(d, es)
    decreases |es|
  {
    if es != [] {
      if es[0].Check? && PutRefusal(d.cell, es[0].now).None? {
        assert es[1..][1..] == es[2..] && es[1..][0] == es[1];
        WholeIsUndisturbed(Next(Next(d, es[0]), es[1]), es[2..]);
      } else {
        WholeIsUndisturbed(Next(d, es[0]), es[1..]);
      }
    }
  }

  // ---------------------------------------------------------------- how it goes wrong

  /** Any two puts whose checks pass on one cell both store, whatever the order of their writes, and the second
    write is what the slot holds. */
  lemma OverlappingPuts(d: Desk, first: nat, second: nat, now: nat, bodies: (nat, nat))
    requires PutRefusal(d.cell, first).None? && PutRefusal(d.cell, second).None? && forall k :: k in d.open ==> k < |d.puts|
    ensures var both := Next(Next(d, Check(first)), Check(second));
      var a, b := Write(now, |d.puts|, bodies.0), Write(now, |d.puts| + 1, bodies.1);
      && !Disturbed(both, a) && Reply(both, a) == Some(Stored)
      && Disturbed(Next(both, a), b) && Reply(Next(both, a), b) == Some(Stored)
      && Next(Next(both, a), b).cell.value == Some(bodies.1)
      && !Disturbed(both, b) && Disturbed(Next(both, b), a) && Next(Next(both, b), a).cell.value == Some(bodies.0)
  {
  }

  /** And without a second put: a write that comes after its window was over and the slot opened again ends the new
    window, as it sets the end it saw before. */
  lemma LateWriteCloses()
    ensures var checked := Next(Next(CLOSED, Take(0)), Check(899_999));
      && Reply(checked, Take(900_000)) == Some(Opened)
      && var again := Next(checked, Take(900_000));
      && PutRefusal(again.cell, 900_001).None?
      && Reply(again, Write(900_001, 0, 7)) == Some(Stored)
      && var late := Next(again, Write(900_001, 0, 7));
      && Reply(late, Check(900_001)) == Some(NotOpen) && Reply(late, Take(900_001)) == Some(Opened)
  {
  }

  // ---------------------------------------------------------------- the alarm

  function Replies(d: Desk, es: seq<Event>): seq<Option<Answer>>
    decreases |es|
  {
    if es == [] then []
    else (if es[0].Fire? then [] else [Reply(d, es[0])]) + Replies(Next(d, es[0]), es[1..])
  }

  function WithoutAlarms(es: seq<Event>): seq<Event> {
    if es == [] then [] else (if es[0].Fire? then [] else [es[0]]) + WithoutAlarms(es[1..])
  }

  /** The same, or both closed. */
  ghost predicate Alike(c: Cell, d: Cell, now: nat) {
    (c.openUntil == d.openUntil && c.value == d.value && c.used == d.used) || (!c.Live(now) && !d.Live(now))
  }

  ghost predicate DesksAlike(c: Desk, d: Desk, now: nat) {
    c.puts == d.puts && c.open == d.open && c.openings == d.openings && c.writes == d.writes && Alike(c.cell, d.cell, now)
  }

  /** What `Waits` says, of the cell alone. */
  ghost predicate Tidy(d: Desk, now: nat) {
    && d.cell.alarm == d.cell.openUntil
    && forall k :: 0 <= k < |d.puts| ==>
         var p := d.puts[k];
         && p.openings <= d.openings && p.writes <= d.writes
         && (p.openings == d.openings && p.writes == d.writes ==>
               && d.cell.value.None? && !d.cell.used
               && (d.cell.openUntil == Some(p.seen) || (d.cell.openUntil.None? && p.seen <= now)))
  }

  lemma StepTidy(d: Desk, e: Event, clock: nat)
    requires Tidy(d, clock) && clock <= e.now
    ensures Tidy(Next(d, e), e.now)
  {
  }

  lemma LaterTidy(d: Desk, clock: nat, now: nat)
    requires Tidy(d, clock) && clock <= now
    ensures Tidy(d, now)
  {
  }

  /** A write that tells a wiped slot from one that was over: it opens the slot again, and only one was read. */
  predicate Tells(c: Desk, d: Desk, e: Event) {
    Writes(c, e) &&
    var p := c.puts[e.put];
    !c.cell.Live(e.now) && !d.cell.Live(e.now) && c.cell.used != d.cell.used && Min(p.seen, p.at + VALUE_TTL) > e.now
  }

  lemma StepTellsIff(c: Desk, d: Desk, e: Event, clock: nat)
    requires DesksAlike(c, d, clock) && c.cell.alarm == c.cell.openUntil && clock <= e.now
    ensures Next(c, e).cell.alarm == Next(c, e).cell.openUntil
    ensures e.Fire? ==> DesksAlike(Next(c, e), d, e.now)
    ensures !e.Fire? ==> Reply(c, e) == Reply(d, e) && (DesksAlike(Next(c, e), Next(d, e), e.now) <==> !Tells(c, d, e))
  {
  }

  /** `c` with the alarms of a run and `d` without them are alike at every moment. */
  ghost predicate AlwaysAlike(c: Desk, d: Desk, es: seq<Event>, clock: nat)
    decreases |es|
  {
    && DesksAlike(c, d, clock)
    && (es != [] ==> AlwaysAlike(Next(c, es[0]), if es[0].Fire? then d else Next(d, es[0]), es[1..], es[0].now))
  }

  predicate NeverTells(c: Desk, d: Desk, es: seq<Event>)
    decreases |es|
  {
    es == [] ||
    (!Tells(c, d, es[0]) && NeverTells(Next(c, es[0]), if es[0].Fire? then d else Next(d, es[0]), es[1..]))
  }

  lemma {:induction false} AlikeIffNeverTells(c: Desk, d: Desk, es: seq<Event>, clock: nat)
    requires DesksAlike(c, d, clock) && c.cell.alarm == c.cell.openUntil && Clock(es, clock)
    ensures AlwaysAlike(c, d, es, clock) <==> NeverTells(c, d, es)
    ensures NeverTells(c, d, es) ==> Replies(c, es) == Replies(d, WithoutAlarms(es))
    decreases |es|
  {
    if es != [] {
      var e, rest := es[0], WithoutAlarms(es[1..]);
      StepTellsIff(c, d, e, clock);
      hide Next, Reply, DesksAlike;
      var d' := if e.Fire? then d else Next(d, e);
      assert e.Fire? ==> !Tells(c, d, e);
      if e.Fire? {
        assert WithoutAlarms(es) == rest;
      } else {
        assert WithoutAlarms(es)[0] == e && WithoutAlarms(es)[1..] == rest;
      }
      hide Tells;
      if !Tells(c, d, e) {
        AlikeIffNeverTells(Next(c, e), d', es[1..], e.now);
      } else {
        assert !AlwaysAlike(Next(c, e), d', es[1..], e.now);
      }
    }
  }

  /** Exactly when alarms make a difference to a slot: it is alike at every moment with and without those that fired,
    and answers alike, if and only if no write tells. */
  lemma AlarmsMatterIff(es: seq<Event>, clock: nat)
    requires Clock(es, clock)
    ensures AlwaysAlike(CLOSED, CLOSED, es, clock) <==> NeverTells(CLOSED, CLOSED, es)
    ensures NeverTells(CLOSED, CLOSED, es) ==> Replies(CLOSED, es) == Replies(CLOSED, WithoutAlarms(es))
  {
    AlikeIffNeverTells(CLOSED, CLOSED, es, clock);
  }

  lemma {:induction false} UndisturbedTellsNothing(c: Desk, d: Desk, es: seq<Event>, clock: nat)
    requires DesksAlike(c, d, clock) && Tidy(c, clock) && Tidy(d, clock) && Clock(es, clock) && Undisturbed(c, es)
    ensures NeverTells(c, d, es)
    decreases |es|
  {
    if es != [] {
      var e := es[0];
      assert !Tells(c, d, e);
      StepTellsIff(c, d, e, clock);
      StepTidy(c, e, clock);
      StepTidy(d, e, clock);
      LaterTidy(d, clock, e.now);
      hide Next, DesksAlike, Tidy, Disturbed, Tells;
      UndisturbedTellsNothing(Next(c, e), if e.Fire? then d else Next(d, e), es[1..], e.now);
    }
  }

  /** So alarms that fire on time or late, or never, change no answer of a run whose puts are undisturbed. */
  lemma AlarmsChangeNothing(es: seq<Event>, clock: nat)
    requires Clock(es, clock) && Undisturbed(CLOSED, es)
    ensures Replies(CLOSED, es) == Replies(CLOSED, WithoutAlarms(es))
  {
    UndisturbedTellsNothing(CLOSED, CLOSED, es, clock);
    AlikeIffNeverTells(CLOSED, CLOSED, es, clock);
  }

  /** It takes a disturbed put: here its value is handed over if the alarm fired, and refused as used if not. */
  lemma AlarmForgetsUse()
    ensures var d := Next(Next(Next(CLOSED, Take(0)), Check(1)), Check(200_000));
      && Reply(Next(d, Write(200_000, 0, 10)), Take(200_001)) == Some(Value(10))
      && var read := Next(Next(d, Write(200_000, 0, 10)), Take(200_001));
      && var fired := Next(read, Fire(300_001));
      && Reply(Next(fired, Write(300_002, 1, 20)), Take(300_003)) == Some(Value(20))
      && Reply(Next(read, Write(300_002, 1, 20)), Take(300_003)) == Some(Used)
  {
  }
}
